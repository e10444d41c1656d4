/**
 Events, and the keys through which one is recognised as the answer to a question
 (internal/event/event.go).
 */
module Events {
  import opened Text

  datatype Kind = Message | Timer | Notification

  datatype Address = Address(connector: string, channel: string, thread: string)

  // id is empty when nobody wrote.
  datatype Actor = Actor(id: string, name: string, person: string)

  datatype Event = Event(
    id: string,
    source: string,
    kind: Kind,
    actor: Actor,
    origin: Address,
    inReplyTo: string,
    content: string)

  /** A place and an id there, as both kinds of key spell them. */
  function Mark(addr: Address, id: string): string {
    addr.connector + ":" + addr.channel + ":" + id
  }

  function ReplyKey(addr: Address, msgId: string): string {
    "reply:" + Mark(addr, msgId)
  }

  function ActorKey(addr: Address, actorId: string): string {
    "actor:" + Mark(addr, actorId)
  }

  function PersonKey(person: string): string {
    "person:" + person
  }

  /** The message replied to, the account where it wrote, the person anywhere; nobody else answers. */
  function ResumeKeys(e: Event): seq<string> {
    if e.kind != Message || e.actor.id == "" then []
    else
      (if e.inReplyTo != "" then [ReplyKey(e.origin, e.inReplyTo)] else [])
      + [ActorKey(e.origin, e.actor.id)]
      + (if e.actor.person != "" then [PersonKey(e.actor.person)] else [])
  }

  ghost predicate SharesKey(e: Event, keys: seq<string>) {
    exists key :: key in ResumeKeys(e) && key in keys
  }

  // ---------- What a key identifies ----------

  predicate SamePlace(a: Address, b: Address) {
    a.connector == b.connector && a.channel == b.channel
  }

  predicate PlainPlace(a: Address) {
    ':' !in a.connector && ':' !in a.channel
  }

  /** Keys of different kinds never collide, and within a kind they spell exactly their place and id. */
  lemma {:induction false} KeysSpellTheirSource(a: Address, x: string, b: Address, y: string, p: string, q: string)
    ensures ReplyKey(a, x) == ReplyKey(b, y) <==> Mark(a, x) == Mark(b, y)
    ensures ActorKey(a, x) == ActorKey(b, y) <==> Mark(a, x) == Mark(b, y)
    ensures PersonKey(p) == PersonKey(q) <==> p == q
    ensures ReplyKey(a, x) != ActorKey(b, y) && ReplyKey(a, x) != PersonKey(p) && ActorKey(a, x) != PersonKey(p)
  {
    assert ReplyKey(a, x)[6..] == Mark(a, x) == ActorKey(a, x)[6..];
    assert ReplyKey(b, y)[6..] == Mark(b, y) == ActorKey(b, y)[6..];
    assert PersonKey(p)[7..] == p && PersonKey(q)[7..] == q;
    assert ReplyKey(a, x)[0] == 'r' && ActorKey(b, y)[0] == 'a' && ActorKey(a, x)[0] == 'a' && PersonKey(p)[0] == 'p';
  }

  lemma {:induction false} FieldsSplit(a: string, b: string, a': string, b': string)
    requires ':' !in a && ':' !in a' && a + [':'] + b == a' + [':'] + b'
    ensures a == a' && b == b'
  {
    CutAt(a, b, ':');
    CutAt(a', b', ':');
  }

  lemma {:induction false} MarkSplits(a: Address, x: string)
    ensures Mark(a, x) == a.connector + [':'] + (a.channel + [':'] + x)
  {
  }

  lemma {:induction false} PlainMarksDiffer(a: Address, x: string, b: Address, y: string)
    requires PlainPlace(a) && PlainPlace(b) && Mark(a, x) == Mark(b, y)
    ensures SamePlace(a, b) && x == y
  {
    MarkSplits(a, x);
    MarkSplits(b, y);
    FieldsSplit(a.connector, a.channel + [':'] + x, b.connector, b.channel + [':'] + y);
    FieldsSplit(a.channel, x, b.channel, y);
  }

  /** What a key spells can always be read as a plain place and an id there. */
  lemma {:induction false} PlainReading(a: Address, x: string) returns (b: Address, y: string)
    ensures PlainPlace(b) && Mark(b, y) == Mark(a, x)
  {
    var tail := a.channel + [':'] + x;
    var connector, rest := a.connector, tail;
    MarkSplits(a, x);
    if ':' in a.connector {
      CutSplits(a.connector, ':');
      var cut := Cut(a.connector, ':').value;
      connector, rest := cut.0, cut.1 + [':'] + tail;
      assert a.connector + [':'] + tail == connector + [':'] + rest;
      assert rest[|cut.1|] == ':';
    } else {
      assert rest[|a.channel|] == ':';
    }
    CutSplits(rest, ':');
    b, y := Address(connector, Cut(rest, ':').value.0, ""), Cut(rest, ':').value.1;
    MarkSplits(b, y);
  }

  /**
   A key names its place and id among all places whose ids hold no colon exactly when its
   own place holds none: any other place shares the keys of each of its ids with a
   different, plain one.
   */
  lemma {:induction false} KeysIdentifyTheirSource(a: Address, x: string)
    ensures PlainPlace(a) <==>
              forall b, y :: PlainPlace(b) && (ReplyKey(a, x) == ReplyKey(b, y) || ActorKey(a, x) == ActorKey(b, y)) ==>
                               SamePlace(a, b) && x == y
    ensures !PlainPlace(a) ==>
              exists b, y :: PlainPlace(b) && !SamePlace(a, b)
                             && ReplyKey(a, x) == ReplyKey(b, y) && ActorKey(a, x) == ActorKey(b, y)
  {
    if PlainPlace(a) {
      forall b, y | PlainPlace(b) && (ReplyKey(a, x) == ReplyKey(b, y) || ActorKey(a, x) == ActorKey(b, y))
        ensures SamePlace(a, b) && x == y
      {
        KeysSpellTheirSource(a, x, b, y, "", "");
        PlainMarksDiffer(a, x, b, y);
      }
    } else {
      var b, y := PlainReading(a, x);
      KeysSpellTheirSource(a, x, b, y, "", "");
      assert !SamePlace(a, b);
    }
  }
}
