/**
 * The memory store as the agents see it, and the memory-tool logic they
 * share. The store itself (embeddings, nearest-neighbour ranking) is not
 * modelled: what it holds is a ghost map from collection name to the texts
 * added, in order; whether an add fails and what a query returns are
 * scripted.
 */
module Memory {
  import opened Wrappers
  import opened Text

  /** The outcome of one `query_memory` call on the store: the matched texts in rank order, or an exception. */
  datatype Hits = Found(texts: seq<string>) | Fault(err: string)

  function Texts(m: map<string, seq<string>>, coll: string): seq<string>
  {
    if coll in m then m[coll] else []
  }

  /** Every collection other than `coll` is as it was: the two maps agree once `coll` is set aside. */
  ghost predicate OnlyTouched(before: map<string, seq<string>>, after: map<string, seq<string>>, coll: string)
  {
    after - {coll} == before - {coll}
  }

  /** Read per collection: any other collection holds the same texts before and after. */
  lemma OnlyTouchedTexts(before: map<string, seq<string>>, after: map<string, seq<string>>, coll: string, other: string)
    requires OnlyTouched(before, after, coll) && other != coll
    ensures Texts(after, other) == Texts(before, other)
  {
    assert other in after <==> other in after - {coll};
    assert other in before <==> other in before - {coll};
    if other in after {
      assert after[other] == (after - {coll})[other];
      assert before[other] == (before - {coll})[other];
    }
  }

  function NextFault(faults: seq<Option<string>>): Option<string>
  {
    if faults == [] then None else faults[0]
  }

  function NextHits(answers: seq<Hits>): Hits
  {
    if answers == [] then Found([]) else answers[0]
  }

  /** `s[1:]` of a script: what taking its next entry leaves. */
  function Rest<T>(s: seq<T>): seq<T>
  {
    if s == [] then [] else s[1..]
  }

  /** A script after `k` entries have been taken. */
  function Drop<T>(s: seq<T>, k: nat): seq<T>
  {
    if k == 0 then s else Drop(Rest(s), k - 1)
  }

  /** Nothing is left of an empty script, however far it is advanced. */
  lemma {:induction false} DropNil<T>(k: nat)
    ensures Drop<T>([], k) == []
  {
    if k > 0 {
      DropNil<T>(k - 1);
    }
  }

  /**
   * `n` adds in a row against the fault script: how many succeed before the
   * first that raises, and what it raises (None when all `n` succeed).
   */
  function AddRun(faults: seq<Option<string>>, n: nat): (r: (nat, Option<string>))
    ensures r.0 <= n
    ensures r.1.None? <==> r.0 == n
    ensures n > 0 ==> (r.0 == 0 && r.1.Some? <==> NextFault(faults).Some?)
    ensures faults == [] ==> r == (n, None)
  {
    if n == 0 then (0, None)
    else match NextFault(faults)
      case Some(e) => (0, Some(e))
      case None =>
        var t := AddRun(Rest(faults), n - 1);
        (t.0 + 1, t.1)
  }

  /** The number of script entries `n` adds take: one per success, and the one that raised. */
  function AddsTaken(faults: seq<Option<string>>, n: nat): nat
  {
    var r := AddRun(faults, n);
    r.0 + if r.1.Some? then 1 else 0
  }

  /** The store ranks and returns at most `limit` texts. */
  function Capped(h: Hits, limit: nat): (r: Hits)
    ensures r.Found? <==> h.Found?
    ensures r.Found? ==> |r.texts| <= limit && |r.texts| <= |h.texts| && r.texts == h.texts[..|r.texts|]
    ensures r.Found? && |h.texts| <= limit ==> r == h
  {
    match h
    case Found(texts) => Found(texts[..Min(limit, |texts|)])
    case Fault(e) => h
  }

  class Store {
    ghost var stored: map<string, seq<string>>
    /** Scripted outcome of each successive add: None succeeds, Some(e) raises e. */
    var addFaults: seq<Option<string>>
    /** Scripted outcome of each successive query. */
    var answers: seq<Hits>

    constructor (faults: seq<Option<string>>, hits: seq<Hits>)
      ensures stored == map[] && addFaults == faults && answers == hits
    {
      stored := map[];
      addFaults := faults;
      answers := hits;
    }

    /** `add_memory(text, metadata, collection_name=coll)` */
    method Add(text: string, coll: string) returns (err: Option<string>)
      modifies this
      ensures err == NextFault(old(addFaults))
      ensures addFaults == Rest(old(addFaults))
      ensures answers == old(answers)
      ensures err.None? ==> stored == old(stored)[coll := Texts(old(stored), coll) + [text]]
      ensures err.Some? ==> stored == old(stored)
    {
      err := NextFault(addFaults);
      addFaults := Rest(addFaults);
      if err.None? {
        stored := stored[coll := Texts(stored, coll) + [text]];
      }
    }

    /** `query_memory(query, n_results=limit, collection_name=coll)`: at most `limit` texts. */
    method Query(query: string, limit: nat, coll: string) returns (h: Hits)
      modifies this
      ensures h == Capped(NextHits(old(answers)), limit)
      ensures answers == if old(answers) == [] then [] else old(answers)[1..]
      ensures stored == old(stored) && addFaults == old(addFaults)
    {
      h := Capped(NextHits(answers), limit);
      answers := if answers == [] then [] else answers[1..];
    }
  }

  /**
   * `for chunk in chunks: add_memory(chunk, ..., collection_name=coll)`: adds
   * the chunks in order and stops at the first add that raises, leaving the
   * chunks already added in place.
   */
  method AddAll(store: Store, coll: string, chunks: seq<string>) returns (added: nat, err: Option<string>)
    modifies store
    ensures (added, err) == AddRun(old(store.addFaults), |chunks|)
    ensures store.addFaults == Drop(old(store.addFaults), AddsTaken(old(store.addFaults), |chunks|))
    ensures Texts(store.stored, coll) == Texts(old(store.stored), coll) + chunks[..added]
    ensures OnlyTouched(old(store.stored), store.stored, coll)
    ensures store.answers == old(store.answers)
  {
    added, err := 0, None;
    while added < |chunks|
      invariant added <= |chunks| && err.None?
      invariant store.addFaults == Drop(old(store.addFaults), added)
      invariant Partway(old(store.addFaults), |chunks|, added)
      invariant Texts(store.stored, coll) == Texts(old(store.stored), coll) + chunks[..added]
      invariant OnlyTouched(old(store.stored), store.stored, coll)
      invariant store.answers == old(store.answers)
    {
      label Before:
      var e := store.Add(chunks[added], coll);
      if e.Some? {
        RunStops(old(store.addFaults), |chunks|, added);
        err := e;
        return;
      }
      RunGoes(old(store.addFaults), |chunks|, added);
      AddedOne(old(store.stored), old@Before(store.stored), store.stored, coll, chunks[added]);
      TakeOneMore(Texts(old(store.stored), coll), chunks, added);
      added := added + 1;
    }
    RunEnds(old(store.addFaults), |chunks|);
  }

  /** After `k` successful adds, the run of `n` is those `k` followed by the run of the rest on what is left of the script. */
  predicate Partway(faults: seq<Option<string>>, n: nat, k: nat)
    requires k <= n
  {
    var r := AddRun(Drop(faults, k), n - k);
    AddRun(faults, n) == (r.0 + k, r.1)
  }

  lemma RunStops(faults: seq<Option<string>>, n: nat, k: nat)
    requires k < n && Partway(faults, n, k) && NextFault(Drop(faults, k)).Some?
    ensures AddRun(faults, n) == (k, NextFault(Drop(faults, k)))
    ensures Drop(faults, AddsTaken(faults, n)) == Rest(Drop(faults, k))
  {
    DropRest(faults, k);
  }

  lemma RunGoes(faults: seq<Option<string>>, n: nat, k: nat)
    requires k < n && Partway(faults, n, k) && NextFault(Drop(faults, k)).None?
    ensures Partway(faults, n, k + 1)
    ensures Drop(faults, k + 1) == Rest(Drop(faults, k))
  {
    DropRest(faults, k);
  }

  lemma RunEnds(faults: seq<Option<string>>, n: nat)
    requires Partway(faults, n, n)
    ensures AddRun(faults, n) == (n, None)
    ensures AddsTaken(faults, n) == n
  {
  }

  /** One more text in `coll` keeps the other collections as they were. */
  lemma AddedOne(before: map<string, seq<string>>, mid: map<string, seq<string>>, after: map<string, seq<string>>, coll: string, text: string)
    requires OnlyTouched(before, mid, coll) && after == mid[coll := Texts(mid, coll) + [text]]
    ensures OnlyTouched(before, after, coll) && Texts(after, coll) == Texts(mid, coll) + [text]
  {
    assert after - {coll} == mid - {coll};
  }

  lemma TakeOneMore<T>(base: seq<T>, s: seq<T>, k: nat)
    requires k < |s|
    ensures base + s[..k] + [s[k]] == base + s[..k + 1]
  {
    assert s[..k + 1] == s[..k] + [s[k]];
  }

  lemma {:induction false} DropRest<T>(s: seq<T>, k: nat)
    ensures Drop(s, k + 1) == Rest(Drop(s, k))
  {
    if k > 0 {
      DropRest(Rest(s), k - 1);
    }
  }

  /** `header + "\n".join([f"- {m}" for m in hits])`, or the sentinel when there are no hits. */
  function FormatHits(header: string, sentinel: string, hits: seq<string>): string
  {
    if hits == [] then sentinel else header + JoinLines(Bulleted(hits))
  }

  function Bulleted(hits: seq<string>): (r: seq<string>)
    ensures |r| == |hits|
    ensures forall k :: 0 <= k < |hits| ==> r[k] == "- " + hits[k]
  {
    if hits == [] then [] else ["- " + hits[0]] + Bulleted(hits[1..])
  }

  /** With a header and a sentinel that differ in their first character, the sentinel comes back exactly when there are no hits. */
  lemma SentinelIffNoHits(header: string, sentinel: string, hits: seq<string>)
    requires header != [] && sentinel != [] && header[0] != sentinel[0]
    ensures FormatHits(header, sentinel, hits) == sentinel <==> hits == []
  {
    if hits != [] {
      var r := FormatHits(header, sentinel, hits);
      assert r[0] == header[0];
    }
  }

  /**
   * Every hit stands on its own "- " line of the formatted text: right after
   * the header when it is first, otherwise after the lines of the hits
   * before it and a newline; then a newline and the lines of the hits after
   * it, or the end of the text.
   */
  lemma FormatHitsLine(header: string, sentinel: string, hits: seq<string>, k: nat)
    requires k < |hits|
    ensures FormatHits(header, sentinel, hits) ==
      header + (if k == 0 then "" else JoinLines(Bulleted(hits[..k])) + "\n") + ("- " + hits[k])
      + (if k + 1 == |hits| then "" else "\n" + JoinLines(Bulleted(hits[k + 1..])))
  {
    var lines := Bulleted(hits);
    var line := "- " + hits[k];
    var before := if k == 0 then "" else JoinLines(Bulleted(hits[..k])) + "\n";
    var after := if k + 1 == |hits| then "" else "\n" + JoinLines(Bulleted(hits[k + 1..]));
    assert lines[..k] == Bulleted(hits[..k]);
    assert lines[k + 1..] == Bulleted(hits[k + 1..]);
    JoinAt("\n", lines, k);
    assert JoinLines(lines) == before + line + after;
    assert FormatHits(header, sentinel, hits) == header + (before + line + after);
    AppendAssoc(header, before, line);
    AppendAssoc(header, before + line, after);
  }

  /** Every hit appears in the formatted text after its "- ". */
  lemma {:induction false} FormatHitsShowsEach(header: string, sentinel: string, hits: seq<string>, k: nat)
    requires k < |hits|
    ensures Contains(FormatHits(header, sentinel, hits), "- " + hits[k])
  {
    JoinContains("\n", Bulleted(hits), k);
    var j := JoinLines(Bulleted(hits));
    var t := "- " + hits[k];
    var i :| 0 <= i <= |j| && StartsWith(j[i..], t);
    assert (header + j)[|header| + i..] == j[i..];
  }
}
