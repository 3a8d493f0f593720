/** Three runs after which the archive cannot be opened again: the clock runs
    back behind a closed segment, half a rollover is survived, and a page in
    doubt is followed by half a rollover that is not survived.  Every page in
    them passes the fetcher's checks. */
module DurableExample {
  import opened Basics
  import opened Transitions
  import opened DurableDocument
  import opened DurableCapture
  import opened DurableArchive
  import opened DurableRuns
  import opened DurableReopen
  import opened DurableLimits

  function Repeat(c: char, n: nat): string {
    seq(n, _ => c)
  }

  const DIGEST: string := Repeat('0', 64)

  /** Documents of 3.25 MiB, above the segment target and below the limit, so
      that every page with events asks for a rollover; any event root. */
  function Setting(h: Hash): Config {
    Config(Identity("prod", "c1", ["a", "b"]), h, _ => 0x34_0000, 0x30_0000)
  }

  /** The journal of node a, and that of node b. */
  function JournalOf(node: string): string {
    if node == "a" then Repeat('0', 32) else Repeat('1', 32)
  }

  function Promised(k: U64): Event
    requires 0 < k
  {
    Event(k, k, Promise, Replica, Replica, 0, 0, k - 1, k, DIGEST, DIGEST)
  }

  function CursorOf(node: string, k: U64): Cursor {
    Cursor(JournalOf(node), k, DIGEST, DIGEST, Replica, 0, k)
  }

  /** A page that ends at the member's head. */
  function PageOf(node: string, es: seq<Event>, head: U64): Page {
    Page(1, "c1", "i", node, InitialState, DIGEST, Replica, 0, 0, head, DIGEST, es,
         JournalOf(node), head, DIGEST, false)
  }

  function ChainOf(node: string, from: U64, to: U64, es: seq<Event>, now: Time): Chain {
    Chain(node, "i", InitialState, Replica, 0, 0, CursorOf(node, from), from,
          CursorOf(node, to), to, to, DIGEST, now, es)
  }

  function DocumentOf(generation: nat, c: Chain): Document {
    Document(2, generation, "prod", "c1", ["a", "b"], true, map["a" := [c]], [])
  }

  function Offer(node: string, es: seq<Event>, head: U64, now: Time, w: Writes): Action {
    Capture(node, PageOf(node, es, head), CursorOf(node, head), now, w)
  }

  const Fine := Writes(Written, Written, Written)

  const Opened := Open(Written, Written)
  const First := Offer("a", [Promised(1)], 1, 10, Fine)
  const Second := Offer("a", [Promised(2)], 2, 11, Fine)
  const Backwards := Offer("a", [], 2, 9, Fine)

  const Half := Offer("a", [Promised(2)], 2, 11, Writes(Written, NotWritten, Written))
  const Other := Offer("b", [], 0, 12, Fine)

  const Doubtful := Offer("b", [], 0, 12, Writes(Written, Written, Unreported))
  const Dying := Offer("a", [Promised(2)], 2, 13, Writes(Written, DiedBefore, Written))

  // ---------------------------------------------------------------------------
  // The pages are ones the fetcher lets through

  /** What ValidatePage accepts for a collector that stands at `cursor`. */
  predicate Passes(a: Action, cursor: Option<Cursor>)
    requires a.Capture?
  {
    && (cursor.Some? ==> CursorUsable(cursor.value)) && PageSchemaOk(a.page, "c1", a.node, "i")
    && PageChainOk(a.page, cursor, a.now) && EndCursor(PageStart(a.page, cursor), a.page.events) == a.cursor
  }

  lemma PromisedFollows(k: U64)
    requires 0 < k
    ensures Accepts(CursorOf("a", k - 1), k - 1, [Promised(k)]) && Accepts(CursorOf("a", k - 1), 0, [Promised(k)])
    ensures EndCursor(CursorOf("a", k - 1), [Promised(k)]) == CursorOf("a", k) && EndTime(k - 1, [Promised(k)]) == k
  {
    assert StepOk(CursorOf("a", k - 1), k - 1, [Promised(k)], 0);
    assert StepOk(CursorOf("a", k - 1), 0, [Promised(k)], 0);
  }

  lemma PagesPass()
    ensures Passes(First, None) && Passes(Second, Some(CursorOf("a", 1))) && Passes(Backwards, Some(CursorOf("a", 2)))
    ensures Passes(Half, Some(CursorOf("a", 1))) && Passes(Dying, Some(CursorOf("a", 1)))
    ensures Passes(Other, None) && Passes(Doubtful, None)
  {
    PromisedFollows(1);
    PromisedFollows(2);
  }

  // ---------------------------------------------------------------------------
  // What the collector makes of them

  const One := DocumentOf(0, ChainOf("a", 0, 1, [Promised(1)], 10))
  const Two := DocumentOf(1, ChainOf("a", 1, 2, [Promised(2)], 11))

  lemma ChainValid(k: U64, now: Time)
    requires 0 < k && now != ZERO_TIME
    ensures ValidChain(ChainOf("a", k - 1, k, [Promised(k)], now))
  {
    PromisedFollows(k);
  }

  lemma FirstPage(h: Hash)
    ensures Prepare(FreshDocument(Setting(h).id), "a", First.page, First.cursor, 10) == Ready(One)
  {
    var base, page := FreshDocument(Setting(h).id), First.page;
    var c := FirstChain("a", page);
    assert Extended(c, page, First.cursor, 10) == ChainOf("a", 0, 1, [Promised(1)], 10);
    ChainValid(1, 10);
    assert base.members == ["a", "b"] && base.members[0] == "a";
    assert TargetChains(base, "a", page) == [c] && PageFits(c, page, First.cursor);
    assert WithLast([c], ChainOf("a", 0, 1, [Promised(1)], 10)) == One.chains["a"];
    assert base.chains["a" := One.chains["a"]] == One.chains;
  }

  lemma SecondPage(now: Time)
    requires now != ZERO_TIME
    ensures Prepare(One, "a", Second.page, Second.cursor, now).Ready?
    ensures now == 11 ==> Prepare(Rolled(One), "a", Second.page, Second.cursor, now) == Ready(Two)
  {
    var base, page := Rolled(One), Second.page;
    assert base.members == ["a", "b"] && base.members[0] == "a";
    var c := ChainsOf(base, "a")[0];
    assert c == ChainOf("a", 1, 1, [], 10);
    assert Extended(c, page, Second.cursor, now) == ChainOf("a", 1, 2, [Promised(2)], now);
    ChainValid(2, now);
    assert AllValid(One) by {
      ChainValid(1, 10);
    }
    assert TargetChains(base, "a", page) == [c] && PageFits(c, page, Second.cursor);
    assert WithLast([c], ChainOf("a", 1, 2, [Promised(2)], 11)) == Two.chains["a"];
    assert base.chains["a" := Two.chains["a"]] == Two.chains;
    RolloverKeepsVerdict(One, "a", page, Second.cursor, now);
  }

  lemma BackwardsPage()
    ensures Prepare(Two, "a", Backwards.page, Backwards.cursor, 9).Ready?
  {
    assert Two.members == ["a", "b"] && Two.members[0] == "a";
    var c := ChainsOf(Two, "a")[0];
    assert Extended(c, Backwards.page, Backwards.cursor, 9) == ChainOf("a", 1, 2, [Promised(2)], 9);
    ChainValid(2, 9);
  }

  lemma OtherPage()
    ensures Prepare(One, "b", Other.page, Other.cursor, 12).Ready?
  {
    assert One.members == ["a", "b"] && One.members[1] == "b";
    var c := FirstChain("b", Other.page);
    assert Extended(c, Other.page, Other.cursor, 12) == ChainOf("b", 0, 0, [], 12);
    assert ValidChain(ChainOf("b", 0, 0, [], 12));
    assert forall n, i :: At(One, n, i) ==> JournalAt(One, n, i)[0] == '0';
    assert JournalOf("b")[0] == '1';
  }

  // ---------------------------------------------------------------------------
  // The first two steps

  const Start := System(Disk(None, map[]), None)
  const Stored1 := System(Disk(Some(One), map[]), Some(One))
  const Stored2 := System(Disk(Some(Two), map[0 := One]), Some(Two))

  function Fresh(h: Hash): System {
    System(Disk(None, map[]), Some(FreshDocument(Setting(h).id)))
  }

  lemma OpenFirst(h: Hash)
    ensures Next(Setting(h), Start, Opened) == Fresh(h)
  {
    hide ReplayOk;
    FreshOpenable(Setting(h));
  }

  lemma CaptureFirst(h: Hash)
    ensures Next(Setting(h), Fresh(h), First) == Stored1 && Sane(Fresh(h), First)
  {
    hide Prepare, One;
    FirstPage(h);
  }

  lemma CaptureSecond(h: Hash)
    ensures Next(Setting(h), Stored1, Second) == Stored2 && Sane(Stored1, Second)
  {
    hide Prepare, Two;
    SecondPage(11);
    assert One.chains["a"][0].events != [];
    assert HasEvents(One);
    assert map[][0 := One] == map[0 := One];
  }

  lemma OpenIsSane()
    ensures Sane(Start, Opened)
  {}

  /** After the first page the process serves what is stored. */
  lemma FirstServing(h: Hash)
    ensures Serving(Setting(h), Stored1) && HasEvents(One)
  {
    assert One.chains["a"][0].events != [];
    assert HasEvents(One) && One.generation == 0;
    hide Replayable, Sane, Next, Prepare, One, HasEvents;
    OpenFirst(h);
    CaptureFirst(h);
    OpenIsSane();
    InitialReplayable(Setting(h), Start);
    StepKeeps(Setting(h), Start, Opened);
    StepKeeps(Setting(h), Fresh(h), First);
  }

  lemma SecondServing(h: Hash)
    ensures Serving(Setting(h), Stored2)
  {
    FirstServing(h);
    CaptureSecond(h);
    assert Two.generation == 1;
    hide Replayable, Sane, Next, One, Two;
    StepKeeps(Setting(h), Stored1, Second);
  }

  lemma AfterTwo(h: Hash, a: Action, b: Action)
    ensures After(Setting(h), Start, [Opened, First]) == Stored1
    ensures After(Setting(h), Start, [Opened, First, a]) == Next(Setting(h), Stored1, a)
    ensures After(Setting(h), Start, [Opened, First, a, b]) == Next(Setting(h), Next(Setting(h), Stored1, a), b)
  {
    hide Next, One, Stored1;
    OpenFirst(h);
    CaptureFirst(h);
    assert [Opened, First, a, b][..3] == [Opened, First, a] && [Opened, First, a][..2] == [Opened, First];
    assert [Opened, First][..1] == [Opened] && [Opened][..0] == [];
    assert After(Setting(h), Start, []) == Start;
    assert After(Setting(h), Start, [Opened]) == Fresh(h);
  }

  // ---------------------------------------------------------------------------
  // Three runs

  /** The page after the rollover is observed before the one in the closed
      segment: it is acknowledged, and no later open succeeds. */
  lemma ClockRunsBack(h: Hash)
    ensures Acked(Setting(h), After(Setting(h), Start, [Opened, First, Second]), Backwards)
    ensures Opening(Setting(h), After(Setting(h), Start, [Opened, First, Second, Backwards]).disk, Written,
                    Written).doc.None?
  {
    AfterTwo(h, Second, Backwards);
    CaptureSecond(h);
    SecondServing(h);
    BackwardsPage();
    hide After, Serving, Prepare;
    assert Acked(Setting(h), Stored2, Backwards);
    RegressionExactly(Setting(h), Stored2, Backwards);
    assert SegmentRun(map[0 := One], 1) == [One];
    assert At(One, "a", 0) && JournalAt(One, "a", 0) == JournalOf("a") && ChainAt(One, "a", 0).observedAt == 10;
    assert !NotRegressed(One, JournalOf("a"), 2, 9);
    OpensExactly(Setting(h), Next(Setting(h), Stored2, Backwards).disk);
  }

  /** The rollover's manifest write fails, the process goes on, and a page of
      the other node is acknowledged: no later open succeeds. */
  lemma HalfRolloverSurvived(h: Hash)
    ensures Acked(Setting(h), After(Setting(h), Start, [Opened, First, Half]), Other)
    ensures Opening(Setting(h), After(Setting(h), Start, [Opened, First, Half]).disk, Written, Written).doc.Some?
    ensures Opening(Setting(h), After(Setting(h), Start, [Opened, First, Half, Other]).disk, Written, Written).doc.None?
  {
    AfterTwo(h, Half, Other);
    FirstServing(h);
    SecondPage(11);
    OtherPage();
    hide After, Serving, Prepare, Openable, HasEvents;
    var t := Next(Setting(h), Stored1, Half);
    FailedRollover(Setting(h), Stored1, Half);
    OpensExactly(Setting(h), t.disk);
    assert Acked(Setting(h), t, Other);
    FailedRolloverExactly(Setting(h), Stored1, t, Other);
    assert !RepeatsRecord(One, "b", Other.page, Other.cursor, 12);
    OpensExactly(Setting(h), Next(Setting(h), t, Other).disk);
  }

  /** A page of the other node is written but reported as failed, and the next
      rollover dies between segment and manifest: no later open succeeds. */
  lemma PageInDoubt(h: Hash)
    ensures After(Setting(h), Start, [Opened, First, Doubtful, Dying]).proc.None?
    ensures Opening(Setting(h), After(Setting(h), Start, [Opened, First, Doubtful, Dying]).disk, Written,
                    Written).doc.None?
  {
    AfterTwo(h, Doubtful, Dying);
    FirstServing(h);
    SecondPage(13);
    OtherPage();
    hide After, Serving, Prepare, Openable, HasEvents, Next;
    PageInDoubtExactly(Setting(h), Stored1, Doubtful, Dying);
    assert !RepeatsRecord(One, "b", Doubtful.page, Doubtful.cursor, 12);
    OpensExactly(Setting(h), Next(Setting(h), Next(Setting(h), Stored1, Doubtful), Dying).disk);
  }
}
