/**
 The dedup window every source goes through (internal/ingest/engine.go). Sources run
 concurrently, but the check and the remembering happen under one lock, so a run is a
 sequence of admissions in lock order.
 */
module Ingest {
  import opened Text
  import opened Events

  const DEDUP_SIZE: nat := 1024

  function KeyOf(source: string, id: string): string {
    source + ['\0'] + id
  }

  /** A key names one source and one of its messages. */
  lemma {:induction false} KeyIsExact(source: string, id: string, source': string, id': string)
    requires '\0' !in source && '\0' !in source'
    ensures KeyOf(source, id) == KeyOf(source', id') <==> source == source' && id == id'
  {
    CutAt(source, id, '\0');
    CutAt(source', id', '\0');
  }

  // ---------- The window ----------

  /** The newest keys of everything remembered. */
  function Window(log: seq<string>): seq<string> {
    if |log| <= DEDUP_SIZE then log else log[|log| - DEDUP_SIZE..]
  }

  function Members(keys: seq<string>): set<string> {
    set i | 0 <= i < |keys| :: keys[i]
  }

  /** Equal keys are more than a whole window apart. */
  ghost predicate Spaced(log: seq<string>) {
    forall i, j :: 0 <= i < j < |log| && log[i] == log[j] ==> j - i > DEDUP_SIZE
  }

  function Offered(log: seq<string>, key: string): seq<string> {
    if key in Window(log) then log else log + [key]
  }

  function AfterAll(offers: seq<string>): seq<string> {
    if offers == [] then [] else Offered(AfterAll(offers[..|offers| - 1]), offers[|offers| - 1])
  }

  lemma {:induction false} OfferedIsSpaced(log: seq<string>, key: string)
    requires Spaced(log)
    ensures Spaced(Offered(log, key))
  {
    if key !in Window(log) {
      var w := Window(log);
      forall i | |log| - |w| <= i < |log| ensures log[i] in w {
        assert w[i - (|log| - |w|)] == log[i];
      }
    }
  }

  /**
   Whatever the sources deliver and however they interleave, two deliveries of the same
   message that both get through have at least 1024 other keys remembered between them.
   */
  lemma {:induction false} RepeatsAreFarApart(offers: seq<string>, i: nat, j: nat)
    requires i < j < |AfterAll(offers)| && AfterAll(offers)[i] == AfterAll(offers)[j]
    ensures j - i - 1 >= 1024
    ensures forall k, l :: j - 1024 <= k < l <= j ==> AfterAll(offers)[k] != AfterAll(offers)[l]
  {
    AlwaysSpaced(offers);
  }

  lemma {:induction false} AlwaysSpaced(offers: seq<string>)
    ensures Spaced(AfterAll(offers))
  {
    if offers != [] {
      AlwaysSpaced(offers[..|offers| - 1]);
      OfferedIsSpaced(AfterAll(offers[..|offers| - 1]), offers[|offers| - 1]);
    }
  }

  /** The window itself never repeats a key. */
  lemma {:induction false} WindowIsDistinct(log: seq<string>)
    requires Spaced(log)
    ensures forall i, j :: 0 <= i < j < |Window(log)| ==> Window(log)[i] != Window(log)[j]
  {
    var from := if |log| <= DEDUP_SIZE then 0 else |log| - DEDUP_SIZE;
    forall i, j | 0 <= i < j < |Window(log)| ensures Window(log)[i] != Window(log)[j] {
      assert Window(log)[i] == log[from + i] && Window(log)[j] == log[from + j];
    }
  }

  // ---------- Deliveries ----------

  /** The event as it goes on: named after its source, with an id. */
  function Named(ev: Event, source: string, freshId: string): Event {
    ev.(source := if ev.source == "" then source else ev.source, id := if ev.id == "" then freshId else ev.id)
  }

  // What a source hands in, and the id drawn should it have none.
  datatype Delivery = Delivery(source: string, raw: Event, freshId: string)

  function KeyOfDelivery(d: Delivery): string {
    var ev := Named(d.raw, d.source, d.freshId);
    KeyOf(ev.source, ev.id)
  }

  /** The keys remembered once all of these were handed in. */
  function Remembered(ds: seq<Delivery>): seq<string> {
    if ds == [] then [] else Offered(Remembered(ds[..|ds| - 1]), KeyOfDelivery(ds[|ds| - 1]))
  }

  lemma {:induction false} RememberedGrows(ds: seq<Delivery>, i: nat)
    requires i <= |ds|
    ensures Remembered(ds[..i]) <= Remembered(ds)
  {
    if i < |ds| {
      RememberedGrows(ds[..|ds| - 1], i);
      assert ds[..|ds| - 1][..i] == ds[..i];
    } else {
      assert ds[..i] == ds;
    }
  }

  lemma RememberedNext(ds: seq<Delivery>, i: nat)
    requires i < |ds|
    ensures Remembered(ds[..i + 1]) == Offered(Remembered(ds[..i]), KeyOfDelivery(ds[i]))
  {
    assert ds[..i + 1][..i] == ds[..i];
  }

  lemma OfferedIsInWindow(log: seq<string>, key: string)
    ensures key in Window(Offered(log, key))
  {
    if key !in Window(log) {
      var w := Window(log + [key]);
      assert w[|w| - 1] == key;
    }
  }

  ghost predicate IsOf(d: Delivery, source: string, id: string) {
    d.raw.id == id && (if d.raw.source == "" then d.source else d.raw.source) == source
  }

  lemma {:induction false} EarlierIsPrefix(ds: seq<Delivery>, i: nat, j: nat)
    requires i <= j <= |ds|
    ensures Remembered(ds[..i]) <= Remembered(ds[..j])
  {
    var later := ds[..j];
    assert later[..i] == ds[..i];
    RememberedGrows(later, i);
  }

  /**
   A message with an id of its own that was let in and comes again is a duplicate until 1024
   keys, its own included, have been remembered since, whatever ids are drawn for messages
   without one; after that, unless it was let in again meanwhile, it passes and is remembered.
   */
  lemma {:induction false} RedeliveryIsDuplicate(
      ds: seq<Delivery>, i: nat, j: nat, source: string, id: string, before: seq<string>, log: seq<string>)
    requires i < j < |ds| && id != "" && IsOf(ds[i], source, id) && IsOf(ds[j], source, id)
    requires before == Remembered(ds[..i]) && log == Remembered(ds[..j]) && KeyOf(source, id) !in Window(before)
    ensures before + [KeyOf(source, id)] <= log
    ensures |log| - |before| <= 1024 ==> KeyOf(source, id) in Window(log) && Remembered(ds[..j + 1]) == log
    ensures |log| - |before| > 1024 && KeyOf(source, id) !in log[|before| + 1..] ==>
              KeyOf(source, id) !in Window(log) && Remembered(ds[..j + 1]) == log + [KeyOf(source, id)]
  {
    assert KeyOfDelivery(ds[i]) == KeyOf(source, id) == KeyOfDelivery(ds[j]);
    RememberedNext(ds, i);
    RememberedNext(ds, j);
    EarlierIsPrefix(ds, i + 1, j);
    InWindowIff(before, log, KeyOf(source, id));
  }

  lemma {:induction false} InWindowIff(before: seq<string>, log: seq<string>, key: string)
    requires before + [key] <= log
    ensures |log| - |before| <= DEDUP_SIZE ==> key in Window(log)
    ensures |log| - |before| > DEDUP_SIZE && key !in log[|before| + 1..] ==> key !in Window(log)
  {
    var w := Window(log);
    assert log[|before|] == (before + [key])[|before|] == key;
    if |log| - |before| <= DEDUP_SIZE {
      assert w[|before| - (|log| - |w|)] == key;
    } else if key !in log[|before| + 1..] {
      forall k | 0 <= k < |w| ensures w[k] != key {
        assert w[k] == log[|before| + 1..][|log| - DEDUP_SIZE + k - |before| - 1];
      }
    }
  }

  // ---------- The engine ----------

  datatype Verdict = Duplicate | NotAdmitted | Pass(event: Event)

  class Engine {
    var allow: map<string, set<string>> // source to admitted accounts, in lower case; absent admits all
    var seen: set<string>
    var order: seq<string>
    ghost var log: seq<string> // every key remembered, in order

    ghost predicate Valid()
      reads this
    {
      Spaced(log) && order == Window(log) && seen == Members(order)
    }

    constructor ()
      ensures Valid() && log == [] && allow == map[]
    {
      allow, seen, order, log := map[], {}, [], [];
    }

    /** With no accounts the source's entry goes, and then it admits all. */
    method Allow(source: string, accounts: seq<string>)
      modifies this`allow
      ensures allow == if accounts == [] then old(allow) - {source}
                       else old(allow)[source := set i | 0 <= i < |accounts| :: ToLower(TrimSpace(accounts[i]))]
    {
      if |accounts| == 0 {
        allow := allow - {source};
        return;
      }
      var admitted: set<string> := {};
      for i := 0 to |accounts|
        invariant admitted == set j | 0 <= j < i :: ToLower(TrimSpace(accounts[j]))
      {
        admitted := admitted + {ToLower(TrimSpace(accounts[i]))};
      }
      allow := allow[source := admitted];
    }

    method Admit(source: string, raw: Event, freshId: string) returns (v: Verdict)
      requires Valid()
      modifies this`seen, this`order, this`log
      ensures Valid()
      ensures var ev := Named(raw, source, freshId);
              var key := KeyOf(ev.source, ev.id);
              && log == Offered(old(log), key)
              && (v == Duplicate <==> key in Window(old(log)))
              && (v.NotAdmitted? <==> key !in Window(old(log)) && ev.source in allow && ev.actor.id != ""
                                      && ToLower(ev.actor.id) !in allow[ev.source])
              && (v.Pass? ==> v.event == ev)
      ensures v.Pass? ==>
                && v.event == raw.(source := v.event.source, id := v.event.id)
                && v.event.source == (if raw.source == "" then source else raw.source)
                && v.event.id == (if raw.id == "" then freshId else raw.id)
      ensures raw.id != "" ==>
                var key := (if raw.source == "" then source else raw.source) + "\0" + raw.id;
                key in Window(log) && (v == Duplicate <==> key in Window(old(log)))
    {
      var ev := Named(raw, source, freshId);
      var key := KeyOf(ev.source, ev.id);
      InWindow(key);
      OfferedIsInWindow(log, key);
      if key in seen {
        return Duplicate;
      }
      Remember(key);
      if ev.source in allow && ev.actor.id != "" && ToLower(ev.actor.id) !in allow[ev.source] {
        return NotAdmitted;
      }
      v := Pass(ev);
    }

    lemma InWindow(key: string)
      requires Valid()
      ensures key in seen <==> key in Window(log)
    {
      if key in Window(log) {
        var i :| 0 <= i < |order| && order[i] == key;
      }
    }

    method Remember(key: string)
      requires Valid() && key !in seen
      modifies this`seen, this`order, this`log
      ensures Valid() && log == old(log) + [key]
    {
      InWindow(key);
      OfferedIsSpaced(log, key);
      ghost var was := order;
      log := log + [key];
      seen := seen + {key};
      order := order + [key];
      MembersSnoc(was, key);
      if |order| > DEDUP_SIZE {
        WindowIsDistinct(old(log));
        MembersTail(order);
        seen := seen - {order[0]};
        order := order[1..];
      }
      assert order == Window(log);
    }
  }

  lemma {:induction false} MembersSnoc(keys: seq<string>, key: string)
    ensures Members(keys + [key]) == Members(keys) + {key}
  {
    var all := keys + [key];
    forall k ensures k in Members(all) <==> k in Members(keys) + {key} {
      if k in Members(keys) {
        var i :| 0 <= i < |keys| && keys[i] == k;
        assert all[i] == k;
      }
      if k == key {
        assert all[|keys|] == k;
      }
      if k in Members(all) {
        var i :| 0 <= i < |all| && all[i] == k;
        assert i < |keys| ==> keys[i] == k;
      }
    }
  }

  lemma {:induction false} MembersTail(keys: seq<string>)
    requires keys != [] && forall i, j :: 0 <= i < j < |keys| ==> keys[i] != keys[j]
    ensures Members(keys) - {keys[0]} == Members(keys[1..])
  {
    forall k ensures k in Members(keys) - {keys[0]} <==> k in Members(keys[1..]) {
      if k in Members(keys) && k != keys[0] {
        var i :| 0 <= i < |keys| && keys[i] == k;
        assert keys[1..][i - 1] == k;
      }
      if k in Members(keys[1..]) {
        var i :| 0 <= i < |keys[1..]| && keys[1..][i] == k;
        assert keys[i + 1] == k;
      }
    }
  }
}
