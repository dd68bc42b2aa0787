/**
 * The plugin connection: one socket to the controller host whose four event
 * handlers update a connection status and the latest state snapshot.
 *
 * The handlers never look at the current status, so the model is a total
 * transition function over every (configuration, event) pair. Decoding a
 * message is an oracle: the event carries the outcome of the JSON parse.
 */
module Connection {
  import opened Wrappers
  import opened Snapshot

  datatype Status = CLOSED | OPEN | RECEIVING | ERROR

  /** Outcome of parsing a message's text. A well-formed `null` document parses to `Parsed(None)`. */
  datatype Payload = Parsed(document: Option<State>) | Unparsable

  datatype Event = OnOpen | OnMessage(payload: Payload) | OnError | OnClose

  /**
   * What the hook holds: the status, the snapshot slot, and whether the
   * hook has asked the socket to close (the only socket call a handler makes).
   */
  datatype Config = Config(status: Status, snapshot: Option<State>, closeRequested: bool)

  /** Before any event: CLOSED, no snapshot, no close asked for. */
  const Init: Config := Config(CLOSED, None, false)

  /** Events that overwrite the snapshot slot. */
  predicate Writes(e: Event) {
    e.OnError? || e.OnClose? || (e.OnMessage? && e.payload.Parsed?)
  }

  /** The value a writing event leaves in the snapshot slot. */
  function Written(e: Event): Option<State>
    requires Writes(e)
  {
    if e.OnMessage? then e.payload.document else None
  }

  /** One handler run. */
  function Step(c: Config, e: Event): (c': Config)
    // The snapshot moves only on writing events, and then to exactly the written value.
    ensures !Writes(e) ==> c'.snapshot == c.snapshot
    ensures Writes(e) ==> c'.snapshot == Written(e)
    // A close is asked for exactly when a message fails to parse, and never withdrawn.
    ensures c'.closeRequested <==> c.closeRequested || e == OnMessage(Unparsable)
    // The status depends on the event alone.
    ensures c'.status == OPEN <==> e.OnOpen?
    ensures c'.status == RECEIVING <==> e.OnMessage? && e.payload.Parsed?
    ensures c'.status == ERROR <==> e.OnError? || e == OnMessage(Unparsable)
    ensures c'.status == CLOSED <==> e.OnClose?
  {
    match e
    case OnOpen => c.(status := OPEN)
    case OnMessage(Parsed(doc)) => c.(status := RECEIVING, snapshot := doc)
    case OnMessage(Unparsable) => c.(status := ERROR, closeRequested := true)
    case OnError => c.(status := ERROR, snapshot := None)
    case OnClose => c.(status := CLOSED, snapshot := None)
  }

  /** The configuration after handling `es` in order, starting from `c`. */
  function Run(c: Config, es: seq<Event>): Config
    decreases |es|
  {
    if es == [] then c else Step(Run(c, es[..|es| - 1]), es[|es| - 1])
  }

  /** Handling two batches in turn is handling their concatenation. */
  lemma {:induction false} RunAppend(c: Config, a: seq<Event>, b: seq<Event>)
    ensures Run(c, a + b) == Run(Run(c, a), b)
    decreases |b|
  {
    if b == [] {
      assert a + b == a;
    } else {
      var b' := b[..|b| - 1];
      assert (a + b)[..|a + b| - 1] == a + b';
      assert (a + b)[|a + b| - 1] == b[|b| - 1];
      RunAppend(c, a, b');
    }
  }

  /**
   * Full replacement: the snapshot after a run is whatever the LAST writing
   * event wrote; nothing of any earlier snapshot survives it.
   */
  lemma {:induction false} RunSnapshotIsLastWrite(c: Config, es: seq<Event>, i: nat)
    requires i < |es| && Writes(es[i])
    requires forall j :: i < j < |es| ==> !Writes(es[j])
    ensures Run(c, es).snapshot == Written(es[i])
    decreases |es|
  {
    if i < |es| - 1 {
      var prefix := es[..|es| - 1];
      assert prefix[i] == es[i];
      forall j | i < j < |prefix|
        ensures !Writes(prefix[j])
      {
        assert prefix[j] == es[j];
      }
      RunSnapshotIsLastWrite(c, prefix, i);
    }
  }

  /** Without a writing event, the snapshot is left exactly as it was. */
  lemma {:induction false} RunSnapshotUntouched(c: Config, es: seq<Event>)
    requires forall j :: 0 <= j < |es| ==> !Writes(es[j])
    ensures Run(c, es).snapshot == c.snapshot
    decreases |es|
  {
    if es != [] {
      var prefix := es[..|es| - 1];
      forall j | 0 <= j < |prefix|
        ensures !Writes(prefix[j])
      {
        assert prefix[j] == es[j];
      }
      RunSnapshotUntouched(c, prefix);
    }
  }

  /** A close has been asked for exactly when some message in the run failed to parse. */
  lemma {:induction false} RunCloseRequested(c: Config, es: seq<Event>)
    ensures Run(c, es).closeRequested <==>
      c.closeRequested || exists j :: 0 <= j < |es| && es[j] == OnMessage(Unparsable)
    decreases |es|
  {
    if es != [] {
      var prefix := es[..|es| - 1];
      RunCloseRequested(c, prefix);
      if exists j :: 0 <= j < |prefix| && prefix[j] == OnMessage(Unparsable) {
        var j :| 0 <= j < |prefix| && prefix[j] == OnMessage(Unparsable);
        assert es[j] == prefix[j];
      }
      if exists j :: 0 <= j < |es| && es[j] == OnMessage(Unparsable) {
        var j :| 0 <= j < |es| && es[j] == OnMessage(Unparsable);
        if j < |prefix| {
          assert prefix[j] == es[j];
        }
      }
    }
  }

  /**
   * The status after a non-empty run is decided by its last event alone:
   * it does not depend on where the run started.
   */
  lemma StatusIsMemoryless(c1: Config, c2: Config, es: seq<Event>)
    requires es != []
    ensures Run(c1, es).status == Run(c2, es).status
  {
  }

  /**
   * RECEIVING is observed only right after a message that parsed, and then
   * the snapshot is that message's document.
   */
  lemma ReceivingShowsLastMessage(c: Config, es: seq<Event>)
    requires Run(c, es).status == RECEIVING
    ensures es != [] ==> exists d :: es[|es| - 1] == OnMessage(Parsed(d)) && Run(c, es).snapshot == d
    ensures es == [] ==> c.status == RECEIVING
  {
    if es != [] {
      var d := es[|es| - 1].payload.document;
      assert es[|es| - 1] == OnMessage(Parsed(d));
    }
  }

  /**
   * An unparsable message keeps the previous snapshot and asks for a close;
   * the ensuing close event is what finally clears it.
   */
  lemma UnparsableThenClose(c: Config)
    ensures Step(c, OnMessage(Unparsable)) == Config(ERROR, c.snapshot, true)
    ensures Run(c, [OnMessage(Unparsable), OnClose]) == Config(CLOSED, None, true)
  {
    assert [OnMessage(Unparsable), OnClose][..1] == [OnMessage(Unparsable)];
    assert [OnMessage(Unparsable)][..0] == [];
  }

  /**
   * A session: open, receive an empty snapshot, receive text that does not
   * parse, and see the socket close.
   */
  lemma SessionScenario(s: State)
    requires s.pads == [] && s.knobs == []
    ensures Run(Init, [OnOpen]).status == OPEN
    ensures Run(Init, [OnOpen, OnMessage(Parsed(Some(s)))]) == Config(RECEIVING, Some(s), false)
    ensures Run(Init, [OnOpen, OnMessage(Parsed(Some(s))), OnMessage(Unparsable)])
         == Config(ERROR, Some(s), true)
    ensures Run(Init, [OnOpen, OnMessage(Parsed(Some(s))), OnMessage(Unparsable), OnClose])
         == Config(CLOSED, None, true)
  {
    var e1, e2, e3, e4 := OnOpen, OnMessage(Parsed(Some(s))), OnMessage(Unparsable), OnClose;
    assert [e1, e2, e3, e4][..3] == [e1, e2, e3];
    assert [e1, e2, e3][..2] == [e1, e2];
    assert [e1, e2][..1] == [e1];
    assert [e1][..0] == [];
  }
}
