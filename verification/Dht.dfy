/** The DHT service of one node: what it announced, and capped provider lookup. */
module Dht {
  import opened Options
  import opened Sequences
  import opened Node

  datatype Hint = Hint(ctid: string, title: string, artist: string)

  /** The network as one search or fetch meets it: the peers that the DHT yields for a key, in
      order of arrival, and each peer's reply to an index query (None when it fails). */
  datatype Remote = Remote(
    providers: string -> seq<string>,
    query: (string, string) -> Option<seq<Hint>>)

  /** The result of FindProviders and FindProvidersForToken. */
  function Lookup(remote: Remote, digest: string, max: nat): Option<seq<string>> {
    if IsDigest(digest) then Some(AtMost(remote.providers(CidOf(digest)), if max == 0 then 1 else max)) else None
  }

  class DhtService {
    var providedKeys: set<Key>
    ghost var announced: set<Mark>
    ghost var records: set<string>
    ghost var marks: set<Mark>
    ghost var refusals: nat

    constructor ()
      ensures providedKeys == {} && announced == {} && records == {} && marks == {} && refusals == 0
    {
      providedKeys := {};
      announced, records, marks, refusals := {}, {}, {}, 0;
    }

    /** answered tells whether the network would take a record; refusals counts how often not. */
    method Provide(ctid: string) returns (ok: bool, ghost answered: bool)
      modifies this
      ensures ok == (answered && IsDigest(ctid))
      ensures providedKeys == if ok then old(providedKeys) + {CtidKey(ctid)} else old(providedKeys)
      ensures records == if ok then old(records) + {CidOf(ctid)} else old(records)
      ensures announced == old(announced) && marks == old(marks)
      ensures refusals == old(refusals) + if answered then 0 else 1
    {
      var connected: bool := *;
      var stored: bool := *;
      answered := connected && stored;
      refusals := refusals + if answered then 0 else 1;
      if !connected {
        return false, answered;
      }
      if !IsDigest(ctid) {
        return false, answered;
      }
      if !stored {
        return false, answered;
      }
      TrackProvided(CtidKey(ctid));
      records := records + {CidOf(ctid)};
      ok := true;
    }

    /** mark is the token and CTID that the hash is announced for. */
    method ProvideToken(tokenHash: string, ghost mark: Mark) returns (ok: bool, ghost answered: bool)
      modifies this
      ensures ok == (answered && IsDigest(tokenHash))
      ensures providedKeys == if ok then old(providedKeys) + {TokenKey(tokenHash)} else old(providedKeys)
      ensures records == if ok then old(records) + {CidOf(tokenHash)} else old(records)
      ensures announced == if ok then old(announced) + {mark} else old(announced)
      ensures marks == if ok then old(marks) + {mark} else old(marks)
      ensures refusals == old(refusals) + if answered then 0 else 1
    {
      var connected: bool := *;
      var stored: bool := *;
      answered := connected && stored;
      refusals := refusals + if answered then 0 else 1;
      if !connected {
        return false, answered;
      }
      if !IsDigest(tokenHash) {
        return false, answered;
      }
      if !stored {
        return false, answered;
      }
      TrackProvided(TokenKey(tokenHash));
      records := records + {CidOf(tokenHash)};
      announced, marks := announced + {mark}, marks + {mark};
      ok := true;
    }

    method TrackProvided(key: Key)
      modifies this`providedKeys
      ensures providedKeys == old(providedKeys) + {key}
    {
      providedKeys := providedKeys + {key};
    }

    /** The loop over the provider channel, stopped at the cap. */
    static method FindProviders(remote: Remote, digest: string, max: nat) returns (r: Option<seq<string>>)
      ensures r == Lookup(remote, digest, max)
      // The first peers that arrive, no more than max, but one if there is any.
      ensures r.None? <==> !IsDigest(digest)
      ensures r.Some? ==>
        var peers := remote.providers(CidOf(digest));
        r.value <= peers && |r.value| == if |peers| <= max then |peers| else if max == 0 then 1 else max
    {
      if !IsDigest(digest) {
        return None;
      }
      var providers := remote.providers(CidOf(digest));
      var result := [];
      for i := 0 to |providers|
        invariant result == providers[..i]
        invariant i == 0 || i < max
      {
        result := result + [providers[i]];
        assert result == providers[..i + 1];
        if |result| >= max {
          assert |providers| == i + 1 ==> result == providers;
          return Some(result);
        }
      }
      assert result == providers;
      return Some(result);
    }
  }
}
