/** The rate-table state of `_SlpPostOfficeClient` in
    electroncash/slp_post_office.py: the postage documents fetched per host,
    the table from token to the document chosen for it, and the ban list.

    `postage_data` is a Python dictionary, which keeps insertion order: an
    assignment to a present key keeps its place, a new key goes last. It is
    modelled as an association list with distinct keys. */
module Client {
  import opened Common

  type Entries = seq<(string, Doc)>

  // ---------------------------------------------------------------------
  // The ordered dictionary of postage documents

  /** The hosts of the entries, in order. */
  function Keys(d: Entries): (ks: seq<string>)
    ensures |ks| == |d| && forall i :: 0 <= i < |d| ==> ks[i] == d[i].0
  {
    if d == [] then [] else [d[0].0] + Keys(d[1..])
  }

  predicate UniqueKeys(d: Entries)
  {
    forall i, j :: 0 <= i < j < |d| ==> d[i].0 != d[j].0
  }

  /** `d[h]` when present. */
  function Lookup(d: Entries, h: string): Option<Doc>
  {
    if d == [] then None
    else if d[0].0 == h then Some(d[0].1)
    else Lookup(d[1..], h)
  }

  /** A lookup finds the document stored under the host, and nothing when no
      entry has that host. */
  lemma {:induction false} LookupFinds(d: Entries, h: string)
    ensures (forall i :: 0 <= i < |d| ==> d[i].0 != h) ==> Lookup(d, h) == None
    ensures UniqueKeys(d) ==> forall i :: 0 <= i < |d| && d[i].0 == h ==> Lookup(d, h) == Some(d[i].1)
  {
    if d != [] {
      LookupFinds(d[1..], h);
      if UniqueKeys(d) {
        assert UniqueKeys(d[1..]) by {
          forall i, j | 0 <= i < j < |d[1..]| ensures d[1..][i].0 != d[1..][j].0 {
            assert d[1..][i] == d[i + 1] && d[1..][j] == d[j + 1];
          }
        }
        forall i | 0 <= i < |d| && d[i].0 == h ensures Lookup(d, h) == Some(d[i].1) {
          if i > 0 {
            assert d[1..][i - 1] == d[i];
          }
        }
      }
      assert (forall i :: 0 <= i < |d| ==> d[i].0 != h) ==>
             (d[0].0 != h && forall i :: 0 <= i < |d[1..]| ==> d[1..][i].0 != h);
    }
  }

  /** `postage_data[host] = doc`: replaces the document of a present host in
      place, or adds the host last. */
  function Put(d: Entries, h: string, v: Doc): (r: Entries)
    ensures Lookup(r, h) == Some(v)
    ensures forall h' :: h' != h ==> Lookup(r, h') == Lookup(d, h')
    ensures h in Keys(d) ==> Keys(r) == Keys(d)
    ensures h !in Keys(d) ==> Keys(r) == Keys(d) + [h]
  {
    if d == [] then [(h, v)]
    else if d[0].0 == h then [(h, v)] + d[1..]
    else [d[0]] + Put(d[1..], h, v)
  }

  /** `postage_data.pop(host)` when the host is present; the dictionary is
      unchanged otherwise. */
  function Remove(d: Entries, h: string): (r: Entries)
    ensures Lookup(r, h) == None
    ensures forall h' :: h' != h ==> Lookup(r, h') == Lookup(d, h')
    ensures (forall j :: 0 <= j < |d| ==> d[j].0 != h) ==> r == d
    ensures forall i :: 0 <= i < |r| ==> r[i] in d && r[i].0 != h
  {
    if d == [] then []
    else if d[0].0 == h then Remove(d[1..], h)
    else [d[0]] + Remove(d[1..], h)
  }

  lemma UniqueKeysTail(d: Entries)
    requires UniqueKeys(d) && d != []
    ensures UniqueKeys(d[1..])
    ensures forall j :: 0 <= j < |d[1..]| ==> d[1..][j].0 != d[0].0
  {
    forall a, b | 0 <= a < b < |d[1..]| ensures d[1..][a].0 != d[1..][b].0 {
      assert d[1..][a] == d[a + 1] && d[1..][b] == d[b + 1];
    }
    forall j | 0 <= j < |d[1..]| ensures d[1..][j].0 != d[0].0 {
      assert d[1..][j] == d[j + 1];
    }
  }

  lemma PutKeepsUnique(d: Entries, h: string, v: Doc)
    requires UniqueKeys(d)
    ensures UniqueKeys(Put(d, h, v))
  {
    var r := Put(d, h, v);
    assert Keys(r) == Keys(d) || Keys(r) == Keys(d) + [h];
    forall i, j | 0 <= i < j < |r| ensures r[i].0 != r[j].0 {
      assert Keys(r)[i] == r[i].0 && Keys(r)[j] == r[j].0;
      if j < |d| {
        assert Keys(d)[i] == d[i].0 && Keys(d)[j] == d[j].0;
      } else {
        assert Keys(d)[i] == d[i].0;
      }
    }
  }

  lemma {:induction false} RemoveKeepsUnique(d: Entries, h: string)
    requires UniqueKeys(d)
    ensures UniqueKeys(Remove(d, h))
  {
    if d != [] {
      assert UniqueKeys(d[1..]) by {
        forall a, b | 0 <= a < b < |d[1..]| ensures d[1..][a].0 != d[1..][b].0 {
          assert d[1..][a] == d[a + 1] && d[1..][b] == d[b + 1];
        }
      }
      RemoveKeepsUnique(d[1..], h);
      var rest := Remove(d[1..], h);
      if d[0].0 != h {
        forall i | 0 <= i < |rest| ensures rest[i].0 != d[0].0 {
          assert rest[i] in d[1..];
        }
        assert Remove(d, h) == [d[0]] + rest;
      }
    }
  }

  /** Removing the host of the first entry, when no other entry has it,
      leaves the rest. */
  lemma RemoveHeadEntry(d: Entries, h: string)
    requires d != [] && d[0].0 == h
    requires forall j :: 0 < j < |d| ==> d[j].0 != h
    ensures Remove(d, h) == d[1..]
  {
    assert forall j :: 0 <= j < |d[1..]| ==> d[1..][j] == d[j + 1];
  }

  /** Removing a host other than the first entry's keeps that entry first. */
  lemma RemoveKeepsHead(d: Entries, h: string)
    requires d != [] && d[0].0 != h
    ensures Remove(d, h) == [d[0]] + Remove(d[1..], h)
  {
  }

  /** Deleting entry `i` of a list is keeping its head and deleting entry
      `i - 1` of its tail. */
  lemma DeleteInTail<T>(s: seq<T>, i: nat)
    requires 0 < i < |s|
    ensures [s[0]] + (s[1..][..i - 1] + s[1..][i..]) == s[..i] + s[i + 1..]
  {
    assert [s[0]] + s[1..][..i - 1] == s[..i];
    assert s[1..][i..] == s[i + 1..];
  }

  /** Removing the host of entry `i`, when no other entry has it, deletes
      that entry and keeps the others in order. */
  lemma {:induction false} RemoveOnlyEntry(d: Entries, h: string, i: nat)
    requires i < |d| && d[i].0 == h
    requires forall j :: 0 <= j < |d| && j != i ==> d[j].0 != h
    ensures Remove(d, h) == d[..i] + d[i + 1..]
  {
    if i == 0 {
      RemoveHeadEntry(d, h);
      assert d[..0] + d[1..] == d[1..];
    } else {
      var tl := d[1..];
      assert forall j :: 0 <= j < |tl| ==> tl[j] == d[j + 1];
      RemoveOnlyEntry(tl, h, i - 1);
      RemoveKeepsHead(d, h);
      DeleteInTail(d, i);
    }
  }

  /** `pop` keeps the order of the remaining hosts: removing a host from a
      dictionary with distinct keys deletes its one entry and nothing else. */
  lemma RemoveKeepsOrder(d: Entries, h: string, i: nat)
    requires UniqueKeys(d) && i < |d| && d[i].0 == h
    ensures Remove(d, h) == d[..i] + d[i + 1..]
  {
    RemoveOnlyEntry(d, h, i);
  }

  // ---------------------------------------------------------------------
  // Which documents offer which tokens

  /** The document has a `stamps` list with a stamp for the token. */
  predicate Offers(doc: Doc, tokenId: string)
  {
    doc.stamps.Some? &&
    exists j :: 0 <= j < |doc.stamps.value| && doc.stamps.value[j].tokenId == tokenId
  }

  /** Every stamp of the document names `host` as its host. */
  predicate HostedBy(doc: Doc, host: string)
  {
    doc.stamps.Some? &&
    forall j :: 0 <= j < |doc.stamps.value| ==> doc.stamps.value[j].host == Some(host)
  }

  /** Entry `k` is the first entry whose document offers the token. */
  predicate IsFirstOffer(d: Entries, tokenId: string, k: int)
  {
    0 <= k < |d| && Offers(d[k].1, tokenId) &&
    forall i :: 0 <= i < k ==> !Offers(d[i].1, tokenId)
  }

  /** The host `optimize_rates` picks for a token: the first host, in
      dictionary order, whose document offers the token. */
  function FirstHost(d: Entries, tokenId: string): Option<string>
  {
    if d == [] then None
    else if Offers(d[0].1, tokenId) then Some(d[0].0)
    else FirstHost(d[1..], tokenId)
  }

  /** The host picked is that of the first offering entry, and there is none
      exactly when no document offers the token. Neither the rates nor the
      ban list play a part. */
  lemma {:induction false} FirstHostIsFirstOffer(d: Entries, tokenId: string)
    ensures FirstHost(d, tokenId).None? <==> forall i :: 0 <= i < |d| ==> !Offers(d[i].1, tokenId)
    ensures forall k :: IsFirstOffer(d, tokenId, k) ==> FirstHost(d, tokenId) == Some(d[k].0)
  {
    if d != [] {
      FirstHostIsFirstOffer(d[1..], tokenId);
      forall k | IsFirstOffer(d, tokenId, k) ensures FirstHost(d, tokenId) == Some(d[k].0) {
        if k > 0 {
          assert IsFirstOffer(d[1..], tokenId, k - 1) by {
            forall i | 0 <= i < k - 1 ensures !Offers(d[1..][i].1, tokenId) {
              assert d[1..][i] == d[i + 1];
            }
          }
        }
      }
      if !Offers(d[0].1, tokenId) {
        assert forall i :: 0 <= i < |d[1..]| ==> d[1..][i] == d[i + 1];
        assert (forall i :: 0 <= i < |d| ==> !Offers(d[i].1, tokenId)) <==>
               (forall i :: 0 <= i < |d[1..]| ==> !Offers(d[1..][i].1, tokenId));
      }
    }
  }

  /** `stamp['host'] = host` on every stamp of a document. */
  function StampHosts(stamps: seq<Stamp>, host: string): (r: seq<Stamp>)
    ensures |r| == |stamps|
    ensures forall j :: 0 <= j < |r| ==> r[j] == stamps[j].(host := Some(host))
  {
    seq(|stamps|, j requires 0 <= j < |stamps| => stamps[j].(host := Some(host)))
  }

  /** The entry after `optimize_rates` has written the host into its
      stamps; an entry without `stamps` is left alone. */
  function StampEntry(e: (string, Doc)): (string, Doc)
  {
    match e.1.stamps
    case None => e
    case Some(stamps) => (e.0, Doc(e.1.weight, Some(StampHosts(stamps, e.0))))
  }

  /** A stamped entry offers the same tokens and names its own host in every
      stamp. */
  lemma StampEntryKeepsOffers(e: (string, Doc), tokenId: string)
    ensures StampEntry(e).0 == e.0
    ensures Offers(StampEntry(e).1, tokenId) <==> Offers(e.1, tokenId)
    ensures e.1.stamps.Some? ==> HostedBy(StampEntry(e).1, e.0)
  {
    if Offers(e.1, tokenId) {
      var j :| 0 <= j < |e.1.stamps.value| && e.1.stamps.value[j].tokenId == tokenId;
      assert StampEntry(e).1.stamps.value[j].tokenId == tokenId;
    }
    if Offers(StampEntry(e).1, tokenId) {
      var j :| 0 <= j < |StampEntry(e).1.stamps.value| && StampEntry(e).1.stamps.value[j].tokenId == tokenId;
      assert e.1.stamps.value[j].tokenId == tokenId;
    }
  }

  // ---------------------------------------------------------------------
  // The ban list

  predicate NoDups(s: seq<string>)
  {
    forall i, j :: 0 <= i < j < |s| ==> s[i] != s[j]
  }

  /** The ban list after `ban_post_office(url)`: appended only when absent. */
  function Banned(s: seq<string>, url: string): (r: seq<string>)
    ensures url in r
    ensures s <= r && |r| <= |s| + 1
    ensures forall x :: x in r <==> x in s || x == url
    ensures NoDups(s) ==> NoDups(r)
  {
    if url in s then s else s + [url]
  }

  /** `list.remove(url)`: deletes the first occurrence, if any. */
  function RemoveFirst(s: seq<string>, url: string): (r: seq<string>)
    ensures url !in s ==> r == s
    ensures url in s ==> |r| == |s| - 1
  {
    if s == [] then []
    else if s[0] == url then s[1..]
    else [s[0]] + RemoveFirst(s[1..], url)
  }

  /** The occurrence removed is the first one: the entries before and after
      it stay, in order. */
  lemma {:induction false} RemoveFirstDeletesFirst(s: seq<string>, url: string, i: nat)
    requires i < |s| && s[i] == url && url !in s[..i]
    ensures RemoveFirst(s, url) == s[..i] + s[i + 1..]
  {
    if i == 0 {
      assert s[..0] + s[1..] == s[1..];
    } else {
      assert s[0] == s[..i][0];
      assert s[1..][i - 1] == s[i];
      assert s[1..][..i - 1] == s[..i][1..];
      RemoveFirstDeletesFirst(s[1..], url, i - 1);
      assert s[..i] + s[i + 1..] == [s[0]] + (s[1..][..i - 1] + s[1..][i..]);
    }
  }

  /** On a list without duplicates, removal leaves the URL absent, keeps the
      list free of duplicates, and keeps every other entry. */
  lemma {:induction false} RemoveFirstFromDistinct(s: seq<string>, url: string)
    requires NoDups(s)
    ensures url !in RemoveFirst(s, url)
    ensures NoDups(RemoveFirst(s, url))
    ensures forall x :: x != url ==> (x in RemoveFirst(s, url) <==> x in s)
  {
    if s != [] {
      assert NoDups(s[1..]) by {
        forall a, b | 0 <= a < b < |s[1..]| ensures s[1..][a] != s[1..][b] {
          assert s[1..][a] == s[a + 1] && s[1..][b] == s[b + 1];
        }
      }
      assert s[0] !in s[1..] by {
        forall a | 0 <= a < |s[1..]| ensures s[1..][a] != s[0] {
          assert s[1..][a] == s[a + 1];
        }
      }
      assert forall x :: x in s <==> x == s[0] || x in s[1..] by {
        assert s == [s[0]] + s[1..];
      }
      if s[0] != url {
        RemoveFirstFromDistinct(s[1..], url);
        var rest := RemoveFirst(s[1..], url);
        assert RemoveFirst(s, url) == [s[0]] + rest;
        assert NoDups([s[0]] + rest) by {
          forall a, b | 0 <= a < b < |[s[0]] + rest| ensures ([s[0]] + rest)[a] != ([s[0]] + rest)[b] {
            assert ([s[0]] + rest)[b] == rest[b - 1];
            if a > 0 {
              assert ([s[0]] + rest)[a] == rest[a - 1];
            }
          }
        }
      }
    }
  }

  // ---------------------------------------------------------------------
  // The two passes of optimize_rates

  /** After the first `i` entries: each token seen so far is recorded with
      the index of the first entry offering it, and its list of stamps
      starts with a stamp naming that entry's host. */
  ghost predicate Collected(data: Entries, i: int, tokenRates: map<string, seq<Stamp>>,
                            firstIdx: map<string, nat>)
  {
    0 <= i <= |data| &&
    firstIdx.Keys == tokenRates.Keys &&
    (forall t :: t in firstIdx ==>
       firstIdx[t] < i && IsFirstOffer(data, t, firstIdx[t]) &&
       tokenRates[t] != [] && tokenRates[t][0].host == Some(data[firstIdx[t]].0)) &&
    (forall k, t :: 0 <= k < i && Offers(data[k].1, t) ==> t in firstIdx)
  }

  /** Once every entry is collected, the tokens recorded are those some
      document offers, each recorded with its first host. */
  lemma CollectedIsFirstHost(data: Entries, tokenRates: map<string, seq<Stamp>>,
                             firstIdx: map<string, nat>, t: string)
    requires Collected(data, |data|, tokenRates, firstIdx)
    ensures t in tokenRates <==> FirstHost(data, t).Some?
    ensures t in tokenRates ==> FirstHost(data, t) == Some(data[firstIdx[t]].0)
  {
    FirstHostIsFirstOffer(data, t);
  }

  /** While entry `i` is being collected: as `Collected`, with the tokens
      first met in entry `i` recorded too. */
  ghost predicate CollectingEntry(data: Entries, i: int, tokenRates: map<string, seq<Stamp>>,
                                  firstIdx: map<string, nat>)
  {
    0 <= i < |data| &&
    firstIdx.Keys == tokenRates.Keys &&
    (forall t :: t in firstIdx ==>
       firstIdx[t] <= i && IsFirstOffer(data, t, firstIdx[t]) &&
       tokenRates[t] != [] && tokenRates[t][0].host == Some(data[firstIdx[t]].0)) &&
    (forall k, t :: 0 <= k < i && Offers(data[k].1, t) ==> t in firstIdx)
  }

  /** One step of the inner loop: appends a stamp of entry `i` to its
      token's list, starting the list when the token is new. */
  method AddStamp(data: Entries, i: nat, tokenRates: map<string, seq<Stamp>>,
                  ghost firstIdx: map<string, nat>, stamp: Stamp)
    returns (rates: map<string, seq<Stamp>>, ghost idx: map<string, nat>)
    requires CollectingEntry(data, i, tokenRates, firstIdx)
    requires stamp.host == Some(data[i].0) && Offers(data[i].1, stamp.tokenId)
    ensures CollectingEntry(data, i, rates, idx)
    ensures stamp.tokenId in idx && firstIdx.Keys <= idx.Keys
    ensures rates.Keys == tokenRates.Keys + {stamp.tokenId}
    ensures rates[stamp.tokenId] ==
              (if stamp.tokenId in tokenRates then tokenRates[stamp.tokenId] else []) + [stamp]
    ensures forall t :: t in tokenRates && t != stamp.tokenId ==> rates[t] == tokenRates[t]
  {
    var tokenId := stamp.tokenId;
    rates := tokenRates;
    idx := firstIdx;
    if tokenId !in rates {
      assert IsFirstOffer(data, tokenId, i);
      rates := rates[tokenId := [stamp]];
      idx := idx[tokenId := i];
    } else {
      rates := rates[tokenId := rates[tokenId] + [stamp]];
    }
  }

  /** The inner loop of the first pass over one entry with a `stamps` list:
      writes the host into each stamp and appends it to its token's list. */
  method CollectStamps(data: Entries, i: nat, tokenRates: map<string, seq<Stamp>>,
                       ghost firstIdx: map<string, nat>)
    returns (stamped: seq<Stamp>, rates: map<string, seq<Stamp>>, ghost idx: map<string, nat>)
    requires i < |data| && data[i].1.stamps.Some?
    requires Collected(data, i, tokenRates, firstIdx)
    ensures stamped == StampHosts(data[i].1.stamps.value, data[i].0)
    ensures Collected(data, i + 1, rates, idx)
  {
    var host := data[i].0;
    var stamps := data[i].1.stamps.value;
    stamped := [];
    rates := tokenRates;
    idx := firstIdx;
    for j := 0 to |stamps|
      invariant |stamped| == j
      invariant forall jj :: 0 <= jj < j ==> stamped[jj] == stamps[jj].(host := Some(host))
      invariant CollectingEntry(data, i, rates, idx)
      invariant forall jj :: 0 <= jj < j ==> stamps[jj].tokenId in idx
    {
      var stamp := stamps[j].(host := Some(host));
      rates, idx := AddStamp(data, i, rates, idx, stamp);
      stamped := stamped + [stamp];
    }
    assert stamped == StampHosts(stamps, host);
    forall t | Offers(data[i].1, t) ensures t in idx {
      var jj :| 0 <= jj < |stamps| && stamps[jj].tokenId == t;
    }
  }

  /** The second pass: each token maps to the document of the host named by
      the first stamp of its list. */
  method PickDocs(tokenRates: map<string, seq<Stamp>>, d: Entries)
    returns (result: map<string, Doc>, ghost chosen: map<string, string>)
    requires forall t :: t in tokenRates ==>
               tokenRates[t] != [] && tokenRates[t][0].host.Some? &&
               Lookup(d, tokenRates[t][0].host.value).Some?
    ensures result.Keys == tokenRates.Keys
    ensures forall t :: t in result ==> Lookup(d, tokenRates[t][0].host.value) == Some(result[t])
    ensures chosen.Keys == result.Keys
    ensures forall t :: t in chosen ==> chosen[t] == tokenRates[t][0].host.value
  {
    result := map[];
    chosen := map[];
    var pending := tokenRates.Keys;
    while pending != {}
      invariant pending <= tokenRates.Keys
      invariant result.Keys == chosen.Keys == tokenRates.Keys - pending
      invariant forall t :: t in result ==>
                  chosen[t] == tokenRates[t][0].host.value && Lookup(d, chosen[t]) == Some(result[t])
      decreases |pending|
    {
      var t :| t in pending;
      var host := tokenRates[t][0].host.value;
      result := result[t := Get(d, host)];
      chosen := chosen[t := host];
      pending := pending - {t};
    }
  }

  /** Writing the hosts into the stamps keeps the hosts, so each host still
      finds its own, now stamped, document. */
  lemma StampedLookup(data: Entries, stamped: Entries, k: nat)
    requires UniqueKeys(data) && |stamped| == |data|
    requires forall i :: 0 <= i < |data| ==> stamped[i] == StampEntry(data[i])
    ensures UniqueKeys(stamped)
    ensures k < |data| ==> Lookup(stamped, data[k].0) == Some(StampEntry(data[k]).1)
  {
    forall i, j | 0 <= i < j < |stamped| ensures stamped[i].0 != stamped[j].0 {
      assert stamped[i].0 == data[i].0 && stamped[j].0 == data[j].0;
    }
    if k < |data| {
      LookupFinds(stamped, data[k].0);
    }
  }

  // ---------------------------------------------------------------------
  // The client

  class PostOfficeClient {
    var postageData: Entries
    var optimizedRates: map<string, Doc>
    var banList: seq<string>
    /** The host whose document `optimizedRates` holds for each token. */
    ghost var chosenHost: map<string, string>

    ghost predicate Valid()
      reads this
    {
      UniqueKeys(postageData) && NoDups(banList) &&
      chosenHost.Keys == optimizedRates.Keys &&
      forall t :: t in optimizedRates ==>
        Offers(optimizedRates[t], t) && HostedBy(optimizedRates[t], chosenHost[t])
    }

    /** The tables of a new client, before any fetch. */
    constructor ()
      ensures Valid()
      ensures postageData == [] && optimizedRates == map[] && banList == []
    {
      postageData := [];
      optimizedRates := map[];
      banList := [];
      chosenHost := map[];
    }

    /** `_set_postage`: a parsed document is stored under the host; a parse
        failure drops the host's document. */
    method SetPostage(host: string, parsed: Option<Doc>)
      requires Valid()
      modifies this
      ensures Valid()
      ensures postageData == if parsed.Some? then Put(old(postageData), host, parsed.value)
                             else Remove(old(postageData), host)
      ensures optimizedRates == old(optimizedRates) && banList == old(banList)
      ensures chosenHost == old(chosenHost)
    {
      match parsed
      case None =>
        RemoveKeepsUnique(postageData, host);
        postageData := Remove(postageData, host);
      case Some(doc) =>
        PutKeepsUnique(postageData, host, doc);
        postageData := Put(postageData, host, doc);
    }

    /** `optimize_rates`: writes each host into its stamps, then maps every
        offered token to the document of the first host offering it. The rate
        sort is discarded and the ban list is not read. */
    method OptimizeRates()
      requires Valid()
      modifies this
      ensures Valid()
      ensures |postageData| == |old(postageData)|
      ensures forall k :: 0 <= k < |postageData| ==> postageData[k] == StampEntry(old(postageData)[k])
      ensures banList == old(banList)
      ensures forall t :: t in optimizedRates <==> FirstHost(old(postageData), t).Some?
      ensures forall t :: t in optimizedRates ==>
                chosenHost[t] == FirstHost(old(postageData), t).value &&
                Lookup(postageData, chosenHost[t]) == Some(optimizedRates[t])
    {
      var data := postageData;
      var tokenRates: map<string, seq<Stamp>> := map[];
      ghost var firstIdx: map<string, nat> := map[];
      var i := 0;
      while i < |data|
        invariant 0 <= i <= |data| && |postageData| == |data|
        invariant forall k :: 0 <= k < i ==> postageData[k] == StampEntry(data[k])
        invariant forall k :: i <= k < |data| ==> postageData[k] == data[k]
        invariant Collected(data, i, tokenRates, firstIdx)
        invariant banList == old(banList)
      {
        match data[i].1.stamps {
          case None =>
          case Some(stamps) =>
            var stamped;
            stamped, tokenRates, firstIdx := CollectStamps(data, i, tokenRates, firstIdx);
            postageData := postageData[i := (data[i].0, Doc(data[i].1.weight, Some(stamped)))];
        }
        i := i + 1;
      }

      forall t | t in tokenRates
        ensures Lookup(postageData, data[firstIdx[t]].0) == Some(postageData[firstIdx[t]].1)
      {
        StampedLookup(data, postageData, firstIdx[t]);
      }
      var result;
      ghost var chosen;
      result, chosen := PickDocs(tokenRates, postageData);
      optimizedRates := result;
      chosenHost := chosen;

      StampedLookup(data, postageData, 0);
      forall t
        ensures t in optimizedRates <==> FirstHost(data, t).Some?
        ensures t in optimizedRates ==> chosenHost[t] == FirstHost(data, t).value
      {
        CollectedIsFirstHost(data, tokenRates, firstIdx, t);
      }
      forall t | t in optimizedRates
        ensures Offers(optimizedRates[t], t) && HostedBy(optimizedRates[t], chosenHost[t])
      {
        var k := firstIdx[t];
        StampedLookup(data, postageData, k);
        StampEntryKeepsOffers(data[k], t);
      }
    }

    /** `get_optimized_postage_data_for_token`. */
    function OptimizedPostageData(tokenId: string): (r: Option<Doc>)
      reads this
      requires Valid()
      ensures r.Some? <==> tokenId in optimizedRates
      ensures r.Some? ==> Offers(r.value, tokenId) && HostedBy(r.value, chosenHost[tokenId])
    {
      if tokenId in optimizedRates then Some(optimizedRates[tokenId]) else None
    }

    /** `get_optimized_post_office_url_for_token`: a `KeyError` for an unknown
        token, otherwise the chosen host's postage endpoint. */
    function OptimizedPostOfficeUrl(tokenId: string): (r: Result<string>)
      reads this
      requires Valid()
      ensures tokenId !in optimizedRates ==> r == Err(MissingKey(tokenId))
      ensures tokenId in optimizedRates ==> r == Ok(chosenHost[tokenId] + "/postage")
    {
      if tokenId !in optimizedRates then Err(MissingKey(tokenId))
      else
        var stamps := optimizedRates[tokenId].stamps.value;
        Ok(stamps[0].host.value + "/postage")
    }

    /** `ban_post_office`. */
    method BanPostOffice(url: string)
      requires Valid()
      modifies this
      ensures Valid()
      ensures banList == Banned(old(banList), url)
      ensures postageData == old(postageData) && optimizedRates == old(optimizedRates)
      ensures chosenHost == old(chosenHost)
    {
      if url !in banList {
        banList := banList + [url];
      }
    }

    /** `allow_post_office`. */
    method AllowPostOffice(url: string)
      requires Valid()
      modifies this
      ensures Valid()
      ensures banList == RemoveFirst(old(banList), url)
      ensures url !in banList
      ensures postageData == old(postageData) && optimizedRates == old(optimizedRates)
      ensures chosenHost == old(chosenHost)
    {
      RemoveFirstFromDistinct(banList, url);
      if url in banList {
        banList := RemoveFirst(banList, url);
      }
    }
  }

  // ---------------------------------------------------------------------
  // The host the rate table is evidently meant to pick

  /** Stamp `j` of entry `k` is for the token, and the entry's host is not
      banned. */
  predicate IsOfferAt(d: Entries, ban: seq<string>, tokenId: string, k: int, j: int)
  {
    0 <= k < |d| && d[k].0 !in ban && d[k].1.stamps.Some? &&
    0 <= j < |d[k].1.stamps.value| && d[k].1.stamps.value[j].tokenId == tokenId
  }

  /** A host that is not banned serves a stamp for the token at `rate`. */
  ghost predicate OffersAt(d: Entries, ban: seq<string>, tokenId: string, host: string, rate: int)
  {
    exists k, j :: IsOfferAt(d, ban, tokenId, k, j) &&
      d[k].0 == host && d[k].1.stamps.value[j].rate == rate
  }

  /** The (host, rate) pairs of the stamps for the token, in order. */
  function StampRates(host: string, stamps: seq<Stamp>, tokenId: string): (r: seq<(string, int)>)
    ensures r == [] <==> forall j :: 0 <= j < |stamps| ==> stamps[j].tokenId != tokenId
    ensures forall j :: 0 <= j < |stamps| && stamps[j].tokenId == tokenId ==> (host, stamps[j].rate) in r
    ensures forall x :: x in r ==>
              exists j :: 0 <= j < |stamps| && stamps[j].tokenId == tokenId && x == (host, stamps[j].rate)
  {
    if stamps == [] then []
    else
      var rest := StampRates(host, stamps[1..], tokenId);
      assert forall j :: 1 <= j < |stamps| ==> stamps[j] == stamps[1..][j - 1];
      if stamps[0].tokenId == tokenId then [(host, stamps[0].rate)] + rest else rest
  }

  /** The (host, rate) pairs of every stamp for the token served by a host
      that is not banned, in the order `optimize_rates` meets them. */
  function Candidates(d: Entries, ban: seq<string>, tokenId: string): (c: seq<(string, int)>)
    ensures forall x :: x in c ==> x.0 !in ban
    ensures c == [] <==> forall k :: 0 <= k < |d| && d[k].0 !in ban ==> !Offers(d[k].1, tokenId)
  {
    if d == [] then []
    else
      var here := if d[0].0 in ban || d[0].1.stamps.None? then []
                  else StampRates(d[0].0, d[0].1.stamps.value, tokenId);
      var rest := Candidates(d[1..], ban, tokenId);
      assert forall k :: 1 <= k < |d| ==> d[k] == d[1..][k - 1];
      here + rest
  }

  /** The candidates are exactly the stamps for the token that hosts not
      banned serve: every such stamp is one, and every one is such a stamp. */
  lemma {:induction false} CandidatesAreOffers(d: Entries, ban: seq<string>, tokenId: string)
    ensures forall host, rate :: (host, rate) in Candidates(d, ban, tokenId) <==>
                                 OffersAt(d, ban, tokenId, host, rate)
  {
    if d != [] {
      var tl := d[1..];
      CandidatesAreOffers(tl, ban, tokenId);
      var here := if d[0].0 in ban || d[0].1.stamps.None? then []
                  else StampRates(d[0].0, d[0].1.stamps.value, tokenId);
      assert Candidates(d, ban, tokenId) == here + Candidates(tl, ban, tokenId);
      forall host, rate
        ensures (host, rate) in Candidates(d, ban, tokenId) <==> OffersAt(d, ban, tokenId, host, rate)
      {
        if (host, rate) in here {
          var j :| 0 <= j < |d[0].1.stamps.value| && d[0].1.stamps.value[j].tokenId == tokenId &&
                   (host, rate) == (d[0].0, d[0].1.stamps.value[j].rate);
          assert IsOfferAt(d, ban, tokenId, 0, j);
        } else if (host, rate) in Candidates(tl, ban, tokenId) {
          var k, j :| IsOfferAt(tl, ban, tokenId, k, j) &&
                      tl[k].0 == host && tl[k].1.stamps.value[j].rate == rate;
          assert tl[k] == d[k + 1];
          assert IsOfferAt(d, ban, tokenId, k + 1, j);
        }
        if OffersAt(d, ban, tokenId, host, rate) {
          var k, j :| IsOfferAt(d, ban, tokenId, k, j) &&
                      d[k].0 == host && d[k].1.stamps.value[j].rate == rate;
          if k > 0 {
            assert tl[k - 1] == d[k];
            assert IsOfferAt(tl, ban, tokenId, k - 1, j);
          }
        }
      }
    }
  }

  /** The first pair of least rate. */
  function Cheapest(c: seq<(string, int)>): (r: (string, int))
    requires c != []
    ensures r in c
    ensures forall x :: x in c ==> r.1 <= x.1
  {
    if |c| == 1 then c[0]
    else
      var rest := Cheapest(c[1..]);
      assert forall x :: x in c ==> x == c[0] || x in c[1..];
      if c[0].1 <= rest.1 then c[0] else rest
  }

  /** The host of the cheapest stamp for the token among the hosts that are
      not banned: what the discarded sort and the unread ban list point to. */
  function IntendedHost(d: Entries, ban: seq<string>, tokenId: string): (r: Option<string>)
    ensures r.None? <==> forall k :: 0 <= k < |d| && d[k].0 !in ban ==> !Offers(d[k].1, tokenId)
    ensures r.Some? ==> r.value !in ban
    ensures r.Some? ==> exists rate :: OffersAt(d, ban, tokenId, r.value, rate) &&
                          forall host, other :: OffersAt(d, ban, tokenId, host, other) ==> rate <= other
  {
    var c := Candidates(d, ban, tokenId);
    CandidatesAreOffers(d, ban, tokenId);
    if c == [] then None
    else
      var best := Cheapest(c);
      assert OffersAt(d, ban, tokenId, best.0, best.1);
      Some(best.0)
  }

  /** Two hosts offering the same token, the first at rate 10 and the second
      at rate 1. */
  function TwoOffers(): Entries
  {
    [("a", Doc(Some(1), Some([Stamp("T", 10, None)]))),
     ("b", Doc(Some(1), Some([Stamp("T", 1, None)])))]
  }

  /** `optimize_rates` picks the dearer first host; the cheapest is the
      second. */
  lemma FirstHostIgnoresRate()
    ensures FirstHost(TwoOffers(), "T") == Some("a")
    ensures IntendedHost(TwoOffers(), [], "T") == Some("b")
  {
    var d := TwoOffers();
    assert d[0].1.stamps.value[0].tokenId == "T";
    assert Offers(d[0].1, "T");
    assert StampRates("a", d[0].1.stamps.value, "T") == [("a", 10)];
    assert StampRates("b", d[1].1.stamps.value, "T") == [("b", 1)];
    assert Candidates(d[1..], [], "T") == [("b", 1)];
    assert Candidates(d, [], "T") == [("a", 10), ("b", 1)];
  }

  /** `optimize_rates` still picks a banned host; with it banned the only
      other offer is the one meant. */
  lemma FirstHostIgnoresBan()
    ensures FirstHost(TwoOffers(), "T") == Some("a")
    ensures IntendedHost(TwoOffers(), ["a"], "T") == Some("b")
  {
    var d := TwoOffers();
    assert d[0].1.stamps.value[0].tokenId == "T";
    assert Offers(d[0].1, "T");
    assert StampRates("b", d[1].1.stamps.value, "T") == [("b", 1)];
    assert Candidates(d[1..], ["a"], "T") == [("b", 1)];
    assert Candidates(d, ["a"], "T") == [("b", 1)];
  }

  /** `postage_data[host]` for a host that is present. */
  function Get(d: Entries, h: string): Doc
    requires Lookup(d, h).Some?
  {
    Lookup(d, h).value
  }
}
