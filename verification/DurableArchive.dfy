/** The collector on disk: segments, manifest, capture with rollover, and the
    recovery done when it is opened (cmd/halro-ha-health/durable_archive.go).

    persistArchive replaces a file atomically.  Each call is given one of five
    outcomes, so that a failing write and a process death before or after the
    replacement are covered at every place the code writes. */
module DurableArchive {
  import opened Basics
  import opened Transitions
  import opened DurableDocument
  import opened DurableVerifier
  import opened DurableCapture

  const ARCHIVE_LIMIT: nat := 0x40_0000

  datatype Disk = Disk(manifest: Option<Document>, segments: map<nat, Document>)

  /** `Unreported` replaces the file and still returns an error, as a failing
      directory sync does. */
  datatype Outcome = Written | NotWritten | Unreported | DiedBefore | DiedAfter {
    predicate Reaches() {
      Written? || Unreported? || DiedAfter?
    }

    predicate Dies() {
      DiedBefore? || DiedAfter?
    }
  }

  /** `size` is the length of the JSON encoding, `target` the segment target. */
  datatype Config = Config(id: Identity, hash: Hash, size: Document -> nat, target: nat)

  predicate Fits(cfg: Config, d: Document) {
    cfg.size(d) + 1 <= ARCHIVE_LIMIT
  }

  function PutManifest(disk: Disk, d: Document, o: Outcome): Disk {
    if o.Reaches() then disk.(manifest := Some(d)) else disk
  }

  function PutSegment(disk: Disk, g: nat, d: Document, o: Outcome): Disk {
    if o.Reaches() then disk.(segments := disk.segments[g := d]) else disk
  }

  predicate HasEvents(d: Document) {
    exists n :: n in d.chains && exists i :: 0 <= i < |d.chains[n]| && d.chains[n][i].events != []
  }

  // ---------------------------------------------------------------------------
  // Rotation and capture as functions of disk, memory and write outcomes

  /** What is left when an operation ends: `alive` is false after a death. */
  datatype Ended = Ended(disk: Disk, doc: Document, ok: bool, alive: bool)

  function FinishRotation(cfg: Config, disk: Disk, doc: Document, wMan: Outcome): Ended {
    var next := Rolled(doc);
    if !Fits(cfg, next) then Ended(disk, doc, false, true)
    else if wMan == Written then Ended(PutManifest(disk, next, wMan), next, true, true)
    else Ended(PutManifest(disk, next, wMan), doc, false, !wMan.Dies())
  }

  function Rotation(cfg: Config, disk: Disk, doc: Document, wSeg: Outcome, wMan: Outcome): Ended {
    if !HasEvents(doc) then Ended(disk, doc, true, true)
    else if doc.generation !in disk.segments then
      var disk1 := PutSegment(disk, doc.generation, doc, wSeg);
      if wSeg == Written then FinishRotation(cfg, disk1, doc, wMan)
      else Ended(disk1, doc, false, !wSeg.Dies())
    else if disk.segments[doc.generation] != doc then Ended(disk, doc, false, true)
    else FinishRotation(cfg, disk, doc, wMan)
  }

  datatype Writes = Writes(segment: Outcome, rolled: Outcome, page: Outcome)

  function StorePage(cfg: Config, disk: Disk, base: Document, next: Document, w: Outcome): Ended {
    if !Fits(cfg, next) then Ended(disk, base, false, true)
    else if w == Written then Ended(PutManifest(disk, next, w), next, true, true)
    else Ended(PutManifest(disk, next, w), base, false, !w.Dies())
  }

  predicate NeedsRotation(cfg: Config, next: Document, page: Page) {
    cfg.size(next) > cfg.target && page.events != []
  }

  ghost function Capturing(cfg: Config, disk: Disk, doc: Document, node: string, page: Page, cursor: Cursor,
                           now: Time, w: Writes): Ended
  {
    var first := Prepare(doc, node, page, cursor, now);
    if first.Refused? then Ended(disk, doc, false, true)
    else if !NeedsRotation(cfg, first.doc, page) then StorePage(cfg, disk, doc, first.doc, w.page)
    else
      var r := Rotation(cfg, disk, doc, w.segment, w.rolled);
      if !r.ok || !r.alive then r
      else
        var second := Prepare(r.doc, node, page, cursor, now);
        if second.Refused? then Ended(r.disk, r.doc, false, true)
        else StorePage(cfg, r.disk, r.doc, second.doc, w.page)
  }

  // ---------------------------------------------------------------------------
  // Opening

  function FreshDocument(id: Identity): Document {
    Document(2, 0, id.environment, id.cluster, id.members, true, map[], [])
  }

  function CurrentDocument(cfg: Config, disk: Disk): Document {
    if disk.manifest.Some? then disk.manifest.value else FreshDocument(cfg.id)
  }

  /** Segments are numbered from zero without a hole. */
  ghost predicate Numbered(segments: map<nat, Document>) {
    forall g: nat :: g in segments <==> g < |segments|
  }

  function SegmentRun(segments: map<nat, Document>, n: nat): seq<Document>
    requires forall g: nat :: g < n ==> g in segments
  {
    seq(n, g requires 0 <= g < n => segments[g])
  }

  ghost predicate Backed(segments: map<nat, Document>, d: Document) {
    forall g: nat :: g < d.generation ==> g in segments
  }

  /** The run of documents a reader of `d` sees: closed segments, then `d`. */
  ghost function View(segments: map<nat, Document>, d: Document): seq<Document>
    requires Backed(segments, d)
  {
    SegmentRun(segments, d.generation) + [d]
  }

  /** replayDurableArchive succeeds: every segment is readable and accepted. */
  ghost predicate ReplayOk(cfg: Config, segments: map<nat, Document>, d: Document) {
    && Backed(segments, d)
    && (forall g: nat :: g < d.generation ==> Fits(cfg, segments[g]))
    && Replays(cfg.hash, cfg.id, View(segments, d))
  }

  function UpgradedChain(c: Chain): Chain {
    c.(start := Baseline(c), lastAt := if c.events == [] then c.lastAt else c.events[|c.events| - 1].at)
  }

  /** The version 1 manifest in version 2 form. */
  function Upgraded(d: Document): Document {
    d.(version := 2,
    chains := map n | n in d.chains :: seq(|d.chains[n]|,
                                         i requires 0 <= i < |d.chains[n]| => UpgradedChain(d.chains[n][i])))
  }

  datatype Opened = Opened(disk: Disk, doc: Option<Document>)

  predicate IdentityOk(cfg: Config, d: Document) {
    d.environment == cfg.id.environment && d.cluster == cfg.id.cluster && d.members == cfg.id.members && d.chainsPresent
  }

  ghost function Recovering(cfg: Config, disk: Disk, doc: Document, wRec: Outcome): Opened
    requires Numbered(disk.segments)
  {
    var count := |disk.segments|;
    if count == doc.generation + 1 then
      if !Fits(cfg, disk.segments[doc.generation]) || disk.segments[doc.generation] != doc
         || !ReplayOk(cfg, disk.segments, doc) then
        Opened(disk, None)
      else
        var next, disk1 := Rolled(doc), PutManifest(disk, Rolled(doc), wRec);
        if wRec != Written || !ReplayOk(cfg, disk1.segments, next) then Opened(disk1, None)
        else Opened(disk1, Some(next))
    else if count != doc.generation || !ReplayOk(cfg, disk.segments, doc) then Opened(disk, None)
    else Opened(disk, Some(doc))
  }

  ghost function Opening(cfg: Config, disk: Disk, wUp: Outcome, wRec: Outcome): Opened {
    var doc := CurrentDocument(cfg, disk);
    if (disk.manifest.Some? && !Fits(cfg, doc)) || !IdentityOk(cfg, doc)
       || !Numbered(disk.segments) then Opened(disk, None)
    else if doc.version == 1 then
      var up := Upgraded(doc);
      if disk.segments != map[] || !ReplayOk(cfg, disk.segments, up) || !Fits(cfg, up) then Opened(disk, None)
      else
        var disk1 := PutManifest(disk, up, wUp);
        if wUp != Written then Opened(disk1, None) else Recovering(cfg, disk1, up, wRec)
    else Recovering(cfg, disk, doc, wRec)
  }

  // ---------------------------------------------------------------------------
  // The program itself

  /** The directory the archive lives in. */
  class Files {
    var manifest: Option<Document>
    var segments: map<nat, Document>

    constructor (disk: Disk)
      ensures Contents() == disk
    {
      manifest, segments := disk.manifest, disk.segments;
    }

    function Contents(): Disk
      reads this
    {
      Disk(manifest, segments)
    }

    method PersistManifest(d: Document, o: Outcome)
      modifies this`manifest
      ensures Contents() == PutManifest(old(Contents()), d, o)
    {
      if o.Reaches() {
        manifest := Some(d);
      }
    }

    method PersistSegment(g: nat, d: Document, o: Outcome)
      modifies this`segments
      ensures Contents() == PutSegment(old(Contents()), g, d, o)
    {
      if o.Reaches() {
        segments := segments[g := d];
      }
    }

    /** durableArchiveSegments: the names found are 0, 1, 2 and so on. */
    method ListSegments() returns (ok: bool)
      ensures ok <==> Numbered(segments)
    {
      for i := 0 to |segments|
        invariant forall g: nat :: g < i ==> g in segments
      {
        if i !in segments {
          return false;
        }
      }
      FirstKeys(segments);
      return true;
    }
  }

  lemma FirstKeys(m: map<nat, Document>)
    requires forall g: nat :: g < |m| ==> g in m
    ensures Numbered(m)
  {
    assert |m.Keys| == |m|;
    SubsetSmaller(FirstNumbers(|m|), m.Keys);
  }

  ghost function FirstNumbers(n: nat): (s: set<nat>)
    ensures |s| == n
    ensures forall g: nat :: g in s <==> g < n
  {
    if n == 0 then {} else FirstNumbers(n - 1) + {n - 1}
  }

  /** replayDurableArchive: one document at a time through one verifier. */
  method ReplayArchive(cfg: Config, segments: map<nat, Document>, current: Document) returns (ok: bool)
    ensures ok <==> ReplayOk(cfg, segments, current)
  {
    var v := new Verifier(cfg.id, cfg.hash);
    for g := 0 to current.generation
      invariant v.Valid() && v.id == cfg.id && v.hash == cfg.hash
      invariant forall k: nat :: k < g ==> k in segments && Fits(cfg, segments[k])
      invariant v.docs == SegmentRun(segments, g)
    {
      if g !in segments || !Fits(cfg, segments[g]) {
        return false;
      }
      var accepted := v.Verify(segments[g]);
      if !accepted {
        if ReplayOk(cfg, segments, current) {
          ReplayStep(cfg, segments, current, g);
        }
        return false;
      }
      assert SegmentRun(segments, g) + [segments[g]] == SegmentRun(segments, g + 1);
    }
    ReplaysSnoc(cfg.hash, cfg.id, v.docs, current);
    ok := v.Verify(current);
  }

  lemma ReplayStep(cfg: Config, segments: map<nat, Document>, current: Document, g: nat)
    requires ReplayOk(cfg, segments, current) && g < current.generation
    ensures AcceptsNext(cfg.hash, cfg.id, SegmentRun(segments, g), segments[g])
  {
    var view := View(segments, current);
    assert AcceptedAt(cfg.hash, cfg.id, view, g);
    assert view[..g] == SegmentRun(segments, g) && view[g] == segments[g];
  }

  method AnyEvents(d: Document) returns (found: bool)
    ensures found <==> HasEvents(d)
  {
    var todo := d.chains.Keys;
    while todo != {}
      invariant todo <= d.chains.Keys
      invariant forall n :: n in d.chains && n !in todo ==>
                              forall i :: 0 <= i < |d.chains[n]| ==> d.chains[n][i].events == []
      decreases |todo|
    {
      var node :| node in todo;
      for i := 0 to |d.chains[node]|
        invariant forall k :: 0 <= k < i ==> d.chains[node][k].events == []
      {
        if d.chains[node][i].events != [] {
          return true;
        }
      }
      todo := todo - {node};
    }
    return false;
  }

  class Archive {
    const cfg: Config
    const files: Files
    var doc: Document
    /** false once the process has died inside an operation */
    var alive: bool

    constructor (cfg: Config, files: Files, doc: Document)
      ensures this.cfg == cfg && this.files == files && this.doc == doc && alive
    {
      this.cfg, this.files, this.doc, this.alive := cfg, files, doc, true;
    }

    /** rotateLocked: the segment first, then the manifest. */
    method RotateLocked(wSeg: Outcome, wMan: Outcome) returns (ok: bool)
      requires alive
      modifies this, files
      ensures Ended(files.Contents(), doc, ok, alive) == Rotation(cfg, old(files.Contents()), old(doc), wSeg, wMan)
    {
      var hasEvents := AnyEvents(doc);
      if !hasEvents {
        return true;
      }
      if doc.generation !in files.segments {
        files.PersistSegment(doc.generation, doc, wSeg);
        if wSeg != Written {
          alive := !wSeg.Dies();
          return false;
        }
      } else if files.segments[doc.generation] != doc {
        return false;
      }
      var next := Rolled(doc);
      if !Fits(cfg, next) {
        return false;
      }
      files.PersistManifest(next, wMan);
      if wMan != Written {
        alive := !wMan.Dies();
        return false;
      }
      doc := next;
      ok := true;
    }

    /** capture: prepare, roll over when the page would overflow the segment,
        prepare again, persist, and only then acknowledge. */
    method Capture(node: string, page: Page, cursor: Cursor, now: Time, w: Writes) returns (acked: bool)
      requires alive
      modifies this, files
      ensures Ended(files.Contents(), doc, acked, alive)
           == Capturing(cfg, old(files.Contents()), old(doc), node, page, cursor, now, w)
    {
      var prepared := PrepareCapture(doc, node, page, cursor, now);
      if prepared.Refused? {
        return false;
      }
      if cfg.size(prepared.doc) > cfg.target && |page.events| > 0 {
        var rotated := RotateLocked(w.segment, w.rolled);
        if !rotated {
          return false;
        }
        prepared := PrepareCapture(doc, node, page, cursor, now);
        if prepared.Refused? {
          return false;
        }
      }
      if !Fits(cfg, prepared.doc) {
        return false;
      }
      files.PersistManifest(prepared.doc, w.page);
      if w.page != Written {
        alive := !w.page.Dies();
        return false;
      }
      doc := prepared.doc;
      acked := true;
    }
  }

  /** openDurableArchive behind the lock: read, upgrade, finish an interrupted
      rollover, replay everything. */
  method OpenArchive(cfg: Config, files: Files, wUp: Outcome, wRec: Outcome) returns (archive: Archive?)
    modifies files
    ensures files.Contents() == Opening(cfg, old(files.Contents()), wUp, wRec).disk
    ensures archive != null <==> Opening(cfg, old(files.Contents()), wUp, wRec).doc.Some?
    ensures archive != null ==> fresh(archive) && archive.alive && archive.files == files && archive.cfg == cfg
                                && archive.doc == Opening(cfg, old(files.Contents()), wUp, wRec).doc.value
  {
    hide ReplayOk, Upgraded, Rolled, Fits, IdentityOk, Numbered;
    archive := null;
    var doc := CurrentDocument(cfg, files.Contents());
    if files.manifest.Some? && !Fits(cfg, doc) {
      return;
    }
    if !IdentityOk(cfg, doc) {
      return;
    }
    var numbered := files.ListSegments();
    if !numbered {
      return;
    }
    if doc.version == 1 {
      if files.segments != map[] {
        return;
      }
      doc := Upgraded(doc);
      var replayed := ReplayArchive(cfg, files.segments, doc);
      if !replayed || !Fits(cfg, doc) {
        return;
      }
      files.PersistManifest(doc, wUp);
      if wUp != Written {
        return;
      }
    }
    archive := RecoverArchive(cfg, files, doc, wRec);
  }

  method RecoverArchive(cfg: Config, files: Files, current: Document, wRec: Outcome) returns (archive: Archive?)
    requires Numbered(files.segments)
    modifies files
    ensures files.Contents() == Recovering(cfg, old(files.Contents()), current, wRec).disk
    ensures archive != null <==> Recovering(cfg, old(files.Contents()), current, wRec).doc.Some?
    ensures archive != null ==> fresh(archive) && archive.alive && archive.files == files && archive.cfg == cfg
                                && archive.doc == Recovering(cfg, old(files.Contents()), current, wRec).doc.value
  {
    hide ReplayOk, Rolled, Fits;
    archive := null;
    var doc := current;
    if |files.segments| == doc.generation + 1 {
      var orphan := files.segments[doc.generation];
      if !Fits(cfg, orphan) || orphan != doc {
        return;
      }
      var replayed := ReplayArchive(cfg, files.segments, doc);
      if !replayed {
        return;
      }
      doc := Rolled(doc);
      files.PersistManifest(doc, wRec);
      if wRec != Written {
        return;
      }
      RolledGeneration(current);
    }
    if |files.segments| != doc.generation {
      return;
    }
    var replayed := ReplayArchive(cfg, files.segments, doc);
    if replayed {
      archive := new Archive(cfg, files, doc);
    }
  }

  lemma RolledGeneration(d: Document)
    ensures Rolled(d).generation == d.generation + 1
  {}
}
