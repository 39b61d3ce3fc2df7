/**
 The stamp-validated cache over the configuration files. A read stats every file, returns the cached
 data if the stamps are the cached ones, and otherwise notes the time, parses the files, stats them
 again and caches what it parsed if nothing moved and every stamp is old enough. Any number of
 readers and of writers, inside and outside the process, interleave step by step. What parsing a
 file yields is represented by the file's content; a file that cannot be opened yields nothing.
 */
module ConfigCache {
  import opened Basics

  type Content = nat

  const SECOND: nat := 1_000_000_000
  const SETTLED_SECONDS: nat := 3
  /** How far a file system may round a time stamp down. */
  const ROUNDING: nat := 2 * SECOND

  datatype Stamp = Absent | Stamp(device: nat, inode: nat, size: nat, mtime: nat, ctime: nat)

  datatype File = Missing | There(stamp: Stamp, content: Content)

  /** What reading a file finds. */
  datatype View = Nothing | Parsed(content: Content)

  /** History: what was in a file when a call came to it, and when that was. */
  datatype Sight = Sight(view: View, version: nat, clock: nat)

  /** `past` is history: what has been in the files, change by change. */
  datatype World = World(files: seq<File>, clock: nat, past: seq<seq<View>>)

  datatype Phase = Idle | Stating | Missed | Parsing | Restating

  /** History: `since` and `clock` say when the call began, `stats` and `parses` what was there at its steps. */
  datatype Reader = Reader(phase: Phase, before: seq<Stamp>, now: nat, data: seq<View>, after: seq<Stamp>,
                           since: nat, clock: nat, stats: seq<Sight>, parses: seq<Sight>)

  datatype Entry = Entry(stamps: seq<Stamp>, data: seq<View>, now: nat, parses: seq<Sight>)

  /** A call that returned the cached entry; it lasted from version `since` to just before `until`. */
  datatype Hit = Hit(entry: Entry, since: nat, until: nat, stats: seq<Sight>)

  /** `needed` files must have been found for the result to be cached. */
  datatype State = State(world: World, needed: seq<bool>, cache: Option<Entry>, readers: seq<Reader>, hits: seq<Hit>)

  datatype Action =
    | Tick(time: nat) | Change(file: nat, to: File) | Invalidate
    | Begin(reader: nat) | Stat(reader: nat) | Lookup(reader: nat) | ReadClock(reader: nat)
    | Parse(reader: nat, opens: bool) | Restat(reader: nat) | Store(reader: nat)

  const RESTING: Reader := Reader(Idle, [], 0, [], [], 0, 0, [], [])

  function StampOf(f: File): Stamp {
    if f.There? then f.stamp else Absent
  }

  function ViewOf(f: File): View {
    if f.There? then Parsed(f.content) else Nothing
  }

  function Stamps(files: seq<File>): (r: seq<Stamp>)
    ensures |r| == |files| && forall k :: 0 <= k < |files| ==> r[k] == StampOf(files[k])
  {
    if files == [] then [] else Stamps(files[..|files| - 1]) + [StampOf(files[|files| - 1])]
  }

  function Views(files: seq<File>): (r: seq<View>)
    ensures |r| == |files| && forall k :: 0 <= k < |files| ==> r[k] == ViewOf(files[k])
  {
    if files == [] then [] else Views(files[..|files| - 1]) + [ViewOf(files[|files| - 1])]
  }

  predicate Settled(stamp: Stamp, now: nat) {
    stamp.Stamp? ==>
      now / SECOND - stamp.mtime / SECOND >= SETTLED_SECONDS && now / SECOND - stamp.ctime / SECOND >= SETTLED_SECONDS
  }

  predicate AllSettled(stamps: seq<Stamp>, now: nat) {
    forall k :: 0 <= k < |stamps| ==> Settled(stamps[k], now)
  }

  predicate Enabled(s: State, a: Action) {
    var n := |s.world.files|;
    s.world.past != [] && match a
    case Tick(time) => time >= s.world.clock
    case Change(k, to) => k < n && Writable(s.world, to)
    case Invalidate => true
    case Begin(i) => i < |s.readers| && s.readers[i].phase.Idle?
    case Stat(i) => i < |s.readers| && s.readers[i].phase.Stating? && |s.readers[i].before| < n
    case Lookup(i) => i < |s.readers| && s.readers[i].phase.Stating? && |s.readers[i].before| == n
    case ReadClock(i) => i < |s.readers| && s.readers[i].phase.Missed?
    case Parse(i, _) => i < |s.readers| && s.readers[i].phase.Parsing? && |s.readers[i].data| < n
    case Restat(i) => i < |s.readers| && s.readers[i].phase.Restating? && |s.readers[i].after| < n
    case Store(i) => i < |s.readers| && s.readers[i].phase.Restating? && |s.readers[i].after| == n
  }

  /** A file that is written now carries the present time, rounded down. */
  predicate Writable(w: World, to: File) {
    to.There? ==> to.stamp.Stamp? && to.stamp.ctime <= w.clock <= to.stamp.ctime + ROUNDING
  }

  /** The needed files were found. */
  predicate Found(needed: seq<bool>, data: seq<View>) {
    forall k :: 0 <= k < |needed| && k < |data| && needed[k] ==> data[k].Parsed?
  }

  function Rewritten(w: World, k: nat, to: File): World
    requires k < |w.files|
  {
    World(w.files[k := to], w.clock, w.past + [Views(w.files[k := to])])
  }

  /** What a step finds in a file just now. */
  function Seen(w: World, k: nat): Sight
    requires k < |w.files| && w.past != []
  {
    Sight(ViewOf(w.files[k]), |w.past| - 1, w.clock)
  }

  function Statted(w: World, r: Reader): Reader
    requires |r.before| < |w.files| && w.past != []
  {
    r.(before := r.before + [StampOf(w.files[|r.before|])], stats := r.stats + [Seen(w, |r.before|)])
  }

  /** A file is parsed; one that cannot be opened gives nothing even if it is there. */
  function ParsedNext(w: World, r: Reader, opens: bool): Reader
    requires |r.data| < |w.files| && w.past != []
  {
    var data := r.data + [if opens then ViewOf(w.files[|r.data|]) else Nothing];
    r.(data := data, parses := r.parses + [Seen(w, |r.data|)], phase := if |data| == |w.files| then Restating else Parsing)
  }

  function Restatted(w: World, r: Reader): Reader
    requires |r.after| < |w.files|
  {
    r.(after := r.after + [StampOf(w.files[|r.after|])])
  }

  function Updated(s: State, i: nat, r: Reader): State
    requires i < |s.readers|
  {
    s.(readers := s.readers[i := r])
  }

  predicate Cacheable(needed: seq<bool>, r: Reader) {
    r.before == r.after && AllSettled(r.before, r.now) && Found(needed, r.data)
  }

  function Begun(w: World): Reader
    requires w.past != []
  {
    Reader(Stating, [], 0, [], [], |w.past| - 1, w.clock, [], [])
  }

  function HitFor(w: World, r: Reader, e: Entry): Hit {
    Hit(e, r.since, |w.past|, r.stats)
  }

  /** One atomic step; an action that is not due changes nothing. */
  function Next(s: State, a: Action): State {
    if !Enabled(s, a) then s
    else match a
      case Tick(time) => s.(world := s.world.(clock := time))
      case Change(k, to) => s.(world := Rewritten(s.world, k, to))
      case Invalidate => s.(cache := None)
      case Begin(i) => Updated(s, i, Begun(s.world))
      case Stat(i) => Updated(s, i, Statted(s.world, s.readers[i]))
      case Lookup(i) =>
        var r := s.readers[i];
        if s.cache.Some? && s.cache.value.stamps == r.before
        then Updated(s, i, RESTING).(hits := s.hits + [HitFor(s.world, r, s.cache.value)])
        else Updated(s, i, r.(phase := Missed))
      case ReadClock(i) => Updated(s, i, s.readers[i].(phase := Parsing, now := s.world.clock))
      case Parse(i, opens) => Updated(s, i, ParsedNext(s.world, s.readers[i], opens))
      case Restat(i) => Updated(s, i, Restatted(s.world, s.readers[i]))
      case Store(i) =>
        var r, t := s.readers[i], Updated(s, i, RESTING);
        if Cacheable(s.needed, r) then t.(cache := Some(Entry(r.before, r.data, r.now, r.parses))) else t
  }

  // ------------------------------------------------------------------------------------------
  // Settled stamps never come back.

  /** While the file carries a stamp that was settled at `now`, it holds what it held at a step after `now`. */
  predicate Vouched(w: World, k: nat, stamp: Stamp, view: View, now: nat) {
    k < |w.files| && now <= w.clock && stamp.Stamp? && Settled(stamp, now) && StampOf(w.files[k]) == stamp ==>
      ViewOf(w.files[k]) == view
  }

  /** A change after `now` gives the file a stamp that differs from every stamp settled at `now`. */
  lemma ChangeUnsettles(now: nat, clock: nat, stamp: Stamp, newer: Stamp)
    requires now <= clock && stamp.Stamp? && Settled(stamp, now)
    requires newer.Stamp? && newer.ctime <= clock <= newer.ctime + ROUNDING
    ensures stamp != newer
  {
  }

  lemma SettledLater(stamp: Stamp, now: nat, later: nat)
    requires Settled(stamp, now) && now <= later
    ensures Settled(stamp, later)
  {
  }

  /** The world has moved on: the past is still the past, and what was vouched for is. */
  ghost predicate Moves(w: World, v: World) {
    && |v.files| == |w.files| && w.clock <= v.clock && |w.past| <= |v.past|
    && (forall i :: 0 <= i < |w.past| ==> v.past[i] == w.past[i])
    && (forall k: nat, stamp, view, now: nat :: Vouched(w, k, stamp, view, now) && now <= w.clock ==> Vouched(v, k, stamp, view, now))
  }

  lemma TickMoves(w: World, time: nat)
    requires w.clock <= time
    ensures Moves(w, w.(clock := time))
  {
  }

  lemma ChangeMoves(w: World, k: nat, to: File)
    requires k < |w.files| && Writable(w, to)
    ensures Moves(w, Rewritten(w, k, to))
  {
    var v := Rewritten(w, k, to);
    forall j: nat, stamp, view, now: nat | Vouched(w, j, stamp, view, now) && now <= w.clock
      ensures Vouched(v, j, stamp, view, now)
    {
      if j == k && to.There? && stamp.Stamp? && Settled(stamp, now) {
        ChangeUnsettles(now, w.clock, stamp, to.stamp);
      }
    }
  }

  // ------------------------------------------------------------------------------------------
  // The invariant.

  predicate FileOk(f: File) {
    f.There? ==> f.stamp.Stamp?
  }

  predicate WorldOk(w: World) {
    && (forall k :: 0 <= k < |w.files| ==> FileOk(w.files[k]))
    && w.past != [] && w.past[|w.past| - 1] == Views(w.files)
  }

  /** True to the past, and in order. */
  predicate Sights(past: seq<seq<View>>, sights: seq<Sight>, since: nat) {
    && (forall k :: 0 <= k < |sights| ==>
          var v := sights[k].version;
          since <= v < |past| && k < |past[v]| && past[v][k] == sights[k].view)
    && (forall i, j :: 0 <= i <= j < |sights| ==> sights[i].version <= sights[j].version)
  }

  ghost predicate StatsOk(w: World, r: Reader) {
    && |r.stats| == |r.before| <= |w.files| && Sights(w.past, r.stats, r.since)
    && forall k :: 0 <= k < |r.stats| ==>
         && r.clock <= r.stats[k].clock <= w.clock && (r.before[k].Absent? <==> r.stats[k].view.Nothing?)
         && Vouched(w, k, r.before[k], r.stats[k].view, r.stats[k].clock)
  }

  /** What was parsed is what was there, or nothing. */
  predicate Yields(data: seq<View>, parses: seq<Sight>) {
    |data| == |parses| && forall k :: 0 <= k < |data| ==> data[k] == parses[k].view || data[k] == Nothing
  }

  ghost predicate ParsesOk(w: World, stamps: seq<Stamp>, data: seq<View>, parses: seq<Sight>, now: nat) {
    && |data| <= |w.files| && Sights(w.past, parses, 0) && Yields(data, parses)
    && forall k :: 0 <= k < |parses| && k < |stamps| ==> Vouched(w, k, stamps[k], parses[k].view, now)
  }

  /** A stamp that was there again after parsing was there while parsing, and so was the file. */
  predicate Again(stamps: seq<Stamp>, after: seq<Stamp>, parses: seq<Sight>, now: nat) {
    forall k :: 0 <= k < |after| && k < |parses| && k < |stamps| && after[k] == stamps[k] && stamps[k].Stamp? && Settled(stamps[k], now) ==>
      parses[k].view.Parsed?
  }

  predicate Phased(w: World, r: Reader) {
    && |r.after| <= |w.files| && (r.after != [] ==> r.phase.Restating?)
    && (r.phase.Idle? || r.phase.Stating? || r.phase.Missed? ==> r.data == [])
    && (r.phase.Missed? || r.phase.Parsing? || r.phase.Restating? ==> |r.before| == |w.files|)
    && (r.phase.Restating? ==> |r.data| == |w.files|)
  }

  ghost predicate ReaderOk(w: World, r: Reader) {
    && r.now <= w.clock && r.clock <= w.clock && r.since < |w.past|
    && Phased(w, r) && StatsOk(w, r) && ParsesOk(w, r.before, r.data, r.parses, r.now) && Again(r.before, r.after, r.parses, r.now)
  }

  ghost predicate EntryOk(w: World, e: Entry) {
    && |e.stamps| == |e.data| == |w.files| && e.now <= w.clock && AllSettled(e.stamps, e.now)
    && ParsesOk(w, e.stamps, e.data, e.parses, e.now) && Again(e.stamps, e.stamps, e.parses, e.now)
  }

  /** What was parsed before the call began was noted as parsed at a time before that. */
  predicate Timed(r: Reader, parses: seq<Sight>, now: nat) {
    r.phase.Stating? && parses != [] ==> parses[0].version >= r.since || now <= r.clock
  }

  /** If the stamp was settled already when the call statted it, what was parsed is what was there then. */
  predicate Agrees(r: Reader, k: nat, stamp: Stamp, view: View, now: nat) {
    && r.phase.Stating? && k < |r.before| && k < |r.stats| && r.before[k] == stamp
    && stamp.Stamp? && Settled(stamp, now) && Settled(stamp, r.stats[k].clock) ==>
      view == r.stats[k].view
  }

  /** That is certain once the second stat has found the stamp again. */
  ghost predicate Fits(r: Reader, stamps: seq<Stamp>, after: seq<Stamp>, parses: seq<Sight>, now: nat) {
    && Timed(r, parses, now)
    && forall k :: 0 <= k < |after| && k < |parses| && k < |stamps| && after[k] == stamps[k] ==> Agrees(r, k, stamps[k], parses[k].view, now)
  }

  ghost predicate FitsReader(r: Reader, q: Reader) {
    Fits(r, q.before, q.after, q.parses, q.now)
  }

  ghost predicate FitsEntry(r: Reader, e: Entry) {
    Fits(r, e.stamps, e.stamps, e.parses, e.now)
  }

  ghost predicate Inv(s: State) {
    && WorldOk(s.world) && |s.needed| == |s.world.files|
    && (s.cache.Some? ==> EntryOk(s.world, s.cache.value))
    && (forall i :: 0 <= i < |s.readers| ==> ReaderOk(s.world, s.readers[i]))
    && (s.cache.Some? ==> forall i :: 0 <= i < |s.readers| ==> FitsEntry(s.readers[i], s.cache.value))
    && (forall i, j :: 0 <= i < |s.readers| && 0 <= j < |s.readers| ==> FitsReader(s.readers[i], s.readers[j]))
  }

  // ------------------------------------------------------------------------------------------
  // Which hits are right.

  /** The entry holds parsed content although its stamp says that there was no file. */
  predicate Crossed(e: Entry, k: nat) {
    k < |e.stamps| && k < |e.data| && e.stamps[k].Absent? && e.data[k].Parsed?
  }

  /** It holds nothing although its stamp says that there was a file. */
  predicate Blind(e: Entry, k: nat) {
    k < |e.stamps| && k < |e.data| && e.stamps[k].Stamp? && e.data[k].Nothing?
  }

  /** The file could be opened when it was parsed, or it was not there. */
  predicate Opened(e: Entry, k: nat) {
    k < |e.data| && k < |e.parses| && e.data[k] == e.parses[k].view
  }

  predicate Plain(e: Entry) {
    forall k :: 0 <= k < |e.data| ==> !Crossed(e, k) && !Blind(e, k)
  }

  ghost predicate Held(past: seq<seq<View>>, since: nat, until: nat, k: nat, view: View) {
    exists v: nat :: since <= v < until && v < |past| && k < |past[v]| && past[v][k] == view
  }

  /** Content that was there at some moment of the call if its stat found the file, and none if it found none. */
  ghost predicate Right(past: seq<seq<View>>, h: Hit, k: nat) {
    && k < |h.entry.data| && k < |h.stats|
    && if h.stats[k].view.Nothing? then h.entry.data[k].Nothing?
       else h.entry.data[k].Parsed? && Held(past, h.since, h.until, k, h.entry.data[k])
  }

  /** Exactly what was there when the call statted the file. */
  predicate Exact(h: Hit, k: nat) {
    k < |h.entry.data| && k < |h.stats| && h.entry.data[k] == h.stats[k].view
  }

  /** The file's stamp was already old enough when the call statted it, or there was no file. */
  predicate LongSettled(h: Hit, k: nat) {
    k < |h.entry.stamps| && k < |h.stats| && Settled(h.entry.stamps[k], h.stats[k].clock)
  }

  /** Going over the files in order at these moments of the call would have found the data. */
  ghost predicate ExplainedBy(past: seq<seq<View>>, h: Hit, moments: seq<nat>) {
    && |moments| == |h.entry.data|
    && (forall i, j :: 0 <= i <= j < |moments| ==> moments[i] <= moments[j])
    && (forall k :: 0 <= k < |moments| ==>
          h.since <= moments[k] < h.until && moments[k] < |past| && k < |past[moments[k]]| && past[moments[k]][k] == h.entry.data[k])
  }

  ghost predicate HitRight(past: seq<seq<View>>, h: Hit) {
    && |h.stats| == |h.entry.data| == |h.entry.stamps| && h.until <= |past| && Sights(past, h.stats, h.since)
    && (forall k :: 0 <= k < |h.stats| ==>
          && h.stats[k].version < h.until
          && (Right(past, h, k) <==> !Crossed(h.entry, k) && !Blind(h.entry, k))
          && (Crossed(h.entry, k) ==> h.stats[k].view.Nothing?) && (Blind(h.entry, k) ==> h.stats[k].view.Parsed? && !Opened(h.entry, k))
          && (LongSettled(h, k) ==> (Exact(h, k) <==> !Crossed(h.entry, k) && !Blind(h.entry, k))))
    && ((forall k :: 0 <= k < |h.entry.data| ==> !Crossed(h.entry, k) && Opened(h.entry, k)) ==>
          exists moments :: ExplainedBy(past, h, moments))
  }

  ghost predicate AllHitsRight(s: State) {
    forall i :: 0 <= i < |s.hits| ==> |s.hits[i].stats| == |s.world.files| && HitRight(s.world.past, s.hits[i])
  }

  // ------------------------------------------------------------------------------------------
  // Every step keeps the invariant.

  lemma SightsMove(w: World, v: World, sights: seq<Sight>, since: nat)
    requires Moves(w, v) && Sights(w.past, sights, since)
    ensures Sights(v.past, sights, since)
  {
  }

  lemma StatsMove(w: World, v: World, r: Reader)
    requires Moves(w, v) && StatsOk(w, r)
    ensures StatsOk(v, r)
  {
    SightsMove(w, v, r.stats, r.since);
    hide Sights;
    forall k | 0 <= k < |r.stats|
      ensures Vouched(v, k, r.before[k], r.stats[k].view, r.stats[k].clock)
    {
      assert Vouched(w, k, r.before[k], r.stats[k].view, r.stats[k].clock);
    }
  }

  lemma ParsesMove(w: World, v: World, stamps: seq<Stamp>, data: seq<View>, parses: seq<Sight>, now: nat)
    requires Moves(w, v) && ParsesOk(w, stamps, data, parses, now) && now <= w.clock
    ensures ParsesOk(v, stamps, data, parses, now)
  {
    SightsMove(w, v, parses, 0);
    hide Sights, Yields;
    forall k | 0 <= k < |parses| && k < |stamps|
      ensures Vouched(v, k, stamps[k], parses[k].view, now)
    {
      assert Vouched(w, k, stamps[k], parses[k].view, now);
    }
  }

  lemma ReaderMoves(w: World, v: World, r: Reader)
    requires Moves(w, v) && ReaderOk(w, r)
    ensures ReaderOk(v, r)
  {
    hide StatsOk, ParsesOk, Again;
    StatsMove(w, v, r);
    ParsesMove(w, v, r.before, r.data, r.parses, r.now);
  }

  lemma EntryMoves(w: World, v: World, e: Entry)
    requires Moves(w, v) && EntryOk(w, e)
    ensures EntryOk(v, e)
  {
    hide ParsesOk, Again;
    ParsesMove(w, v, e.stamps, e.data, e.parses, e.now);
  }

  lemma MovedKeepsInv(s: State, v: World)
    requires Inv(s) && Moves(s.world, v) && WorldOk(v)
    ensures Inv(s.(world := v))
  {
    hide Moves, ReaderOk, EntryOk, WorldOk, FitsReader, FitsEntry;
    assert |v.files| == |s.world.files| by {
      SameFiles(s.world, v);
    }
    if s.cache.Some? {
      EntryMoves(s.world, v, s.cache.value);
    }
    forall i | 0 <= i < |s.readers|
      ensures ReaderOk(v, s.readers[i])
    {
      ReaderMoves(s.world, v, s.readers[i]);
    }
  }

  lemma SameFiles(w: World, v: World)
    requires Moves(w, v)
    ensures |v.files| == |w.files|
  {
  }

  /** Replacing one reader keeps the invariant if the new one fits in with the cache and the others. */
  lemma UpdatedKeepsInv(s: State, i: nat, r: Reader)
    requires Inv(s) && i < |s.readers| && ReaderOk(s.world, r) && FitsReader(r, r)
    requires s.cache.Some? ==> FitsEntry(r, s.cache.value)
    requires forall j :: 0 <= j < |s.readers| ==> FitsReader(s.readers[j], r) && FitsReader(r, s.readers[j])
    ensures Inv(Updated(s, i, r))
  {
    hide ReaderOk, EntryOk, WorldOk, FitsReader, FitsEntry;
  }

  lemma BeginKeepsInv(s: State, i: nat)
    requires Inv(s) && Enabled(s, Begin(i))
    ensures Inv(Next(s, Begin(i)))
  {
    forall j | 0 <= j < |s.readers|
      ensures FitsReader(s.readers[j], Begun(s.world)) && FitsReader(Begun(s.world), s.readers[j])
    {
      assert ReaderOk(s.world, s.readers[j]);
    }
    UpdatedKeepsInv(s, i, Begun(s.world));
  }

  lemma StattedOk(w: World, r: Reader)
    requires WorldOk(w) && ReaderOk(w, r) && r.phase.Stating? && |r.before| < |w.files|
    ensures ReaderOk(w, Statted(w, r))
  {
    hide ParsesOk;
    var n, q := |r.before|, Statted(w, r);
    assert w.past[|w.past| - 1][n] == ViewOf(w.files[n]);
    forall k | 0 <= k < |q.stats|
      ensures Vouched(w, k, q.before[k], q.stats[k].view, q.stats[k].clock)
    {
      assert k == n || Vouched(w, k, r.before[k], r.stats[k].view, r.stats[k].clock);
    }
    NothingParsed(w, q.before, r.now);
    assert r.data == [] && r.parses == [] by {
      Unparsed(w, r);
    }
  }

  lemma Unparsed(w: World, r: Reader)
    requires ReaderOk(w, r) && r.data == []
    ensures r.parses == []
  {
  }

  lemma NothingParsed(w: World, stamps: seq<Stamp>, now: nat)
    ensures ParsesOk(w, stamps, [], [], now)
  {
  }

  /** What another call or the cache has parsed agrees with one more stat. */
  lemma StattedFits(w: World, r: Reader, stamps: seq<Stamp>, after: seq<Stamp>, data: seq<View>, parses: seq<Sight>, now: nat)
    requires WorldOk(w) && ReaderOk(w, r) && r.phase.Stating? && |r.before| < |w.files|
    requires Fits(r, stamps, after, parses, now) && ParsesOk(w, stamps, data, parses, now) && now <= w.clock
    ensures Fits(Statted(w, r), stamps, after, parses, now)
  {
    var n, q := |r.before|, Statted(w, r);
    forall k | 0 <= k < |after| && k < |parses| && k < |stamps| && after[k] == stamps[k]
      ensures Agrees(q, k, stamps[k], parses[k].view, now)
    {
      assert Vouched(w, k, stamps[k], parses[k].view, now) && Agrees(r, k, stamps[k], parses[k].view, now);
    }
  }

  lemma StatKeepsInv(s: State, i: nat)
    requires Inv(s) && Enabled(s, Stat(i))
    ensures Inv(Next(s, Stat(i)))
  {
    var w, r := s.world, s.readers[i];
    var r' := Statted(w, r);
    hide Fits, ParsesOk, StatsOk, Again, WorldOk;
    assert ReaderOk(w, r);
    StattedOk(w, r);
    Unparsed(w, r);
    if s.cache.Some? {
      var e := s.cache.value;
      StattedFits(w, r, e.stamps, e.stamps, e.data, e.parses, e.now);
    }
    forall j | 0 <= j < |s.readers|
      ensures FitsReader(s.readers[j], r') && FitsReader(r', s.readers[j])
    {
      var q := s.readers[j];
      assert ReaderOk(w, q) && FitsReader(r, q);
      StattedFits(w, r, q.before, q.after, q.data, q.parses, q.now);
      FitsUnparsed(q, r');
    }
    FitsUnparsed(r', r');
    UpdatedKeepsInv(s, i, r');
  }

  lemma FitsUnparsed(r: Reader, q: Reader)
    requires q.parses == []
    ensures FitsReader(r, q)
  {
  }

  /** Only a call that is statting has to fit in. */
  lemma FitsAny(r: Reader, stamps: seq<Stamp>, after: seq<Stamp>, parses: seq<Sight>, now: nat)
    requires !r.phase.Stating?
    ensures Fits(r, stamps, after, parses, now)
  {
  }

  /** A call that is past its first stats goes on. */
  lemma PastStatsKeepsInv(s: State, i: nat, r: Reader)
    requires Inv(s) && i < |s.readers| && ReaderOk(s.world, r) && !r.phase.Stating?
    requires forall j :: 0 <= j < |s.readers| ==> FitsReader(s.readers[j], r)
    ensures Inv(Updated(s, i, r))
  {
    hide Fits, ReaderOk, EntryOk, WorldOk;
    FitsAny(r, r.before, r.after, r.parses, r.now);
    if s.cache.Some? {
      FitsAny(r, s.cache.value.stamps, s.cache.value.stamps, s.cache.value.parses, s.cache.value.now);
    }
    forall j | 0 <= j < |s.readers|
      ensures FitsReader(r, s.readers[j])
    {
      var q := s.readers[j];
      FitsAny(r, q.before, q.after, q.parses, q.now);
    }
    UpdatedKeepsInv(s, i, r);
  }

  lemma RestingKeepsInv(s: State, i: nat)
    requires Inv(s) && i < |s.readers|
    ensures Inv(Updated(s, i, RESTING))
  {
    forall j | 0 <= j < |s.readers|
      ensures FitsReader(s.readers[j], RESTING)
    {
      FitsUnparsed(s.readers[j], RESTING);
    }
    PastStatsKeepsInv(s, i, RESTING);
  }

  /** A call that has not parsed yet changes its phase or notes the time. */
  lemma WaitingKeepsInv(s: State, i: nat, r: Reader)
    requires Inv(s) && i < |s.readers| && s.readers[i].data == [] && |s.readers[i].before| == |s.world.files|
    requires (r.phase.Missed? || r.phase.Parsing?) && r.now <= s.world.clock && s.readers[i].after == []
    requires r == s.readers[i].(phase := r.phase, now := r.now)
    ensures Inv(Updated(s, i, r))
  {
    hide StatsOk;
    var q := s.readers[i];
    assert ReaderOk(s.world, q);
    Unparsed(s.world, q);
    StatsSame(s.world, q, r);
    forall j | 0 <= j < |s.readers|
      ensures FitsReader(s.readers[j], r)
    {
      FitsUnparsed(s.readers[j], r);
    }
    PastStatsKeepsInv(s, i, r);
  }

  lemma StatsSame(w: World, q: Reader, r: Reader)
    requires StatsOk(w, q) && r.before == q.before && r.stats == q.stats && r.since == q.since && r.clock == q.clock
    ensures StatsOk(w, r)
  {
  }

  lemma ParsedOk(w: World, r: Reader, opens: bool)
    requires WorldOk(w) && ReaderOk(w, r) && r.phase.Parsing? && |r.data| < |w.files|
    ensures ReaderOk(w, ParsedNext(w, r, opens))
  {
    hide StatsOk;
    var n, q := |r.data|, ParsedNext(w, r, opens);
    StatsSame(w, r, q);
    assert w.past[|w.past| - 1][n] == ViewOf(w.files[n]);
    forall k | 0 <= k < |q.parses| && k < |q.before|
      ensures Vouched(w, k, q.before[k], q.parses[k].view, q.now)
    {
      assert k == n || Vouched(w, k, r.before[k], r.parses[k].view, r.now);
    }
  }

  lemma ParseKeepsInv(s: State, i: nat, opens: bool)
    requires Inv(s) && Enabled(s, Parse(i, opens))
    ensures Inv(Next(s, Parse(i, opens)))
  {
    var w, r := s.world, s.readers[i];
    var r' := ParsedNext(w, r, opens);
    hide StatsOk, ParsesOk, EntryOk, WorldOk;
    assert ReaderOk(w, r);
    ParsedOk(w, r, opens);
    forall j | 0 <= j < |s.readers|
      ensures FitsReader(s.readers[j], r')
    {
      var q := s.readers[j];
      assert ReaderOk(w, q) && FitsReader(q, r);
    }
    PastStatsKeepsInv(s, i, r');
  }

  lemma RestattedOk(w: World, r: Reader)
    requires WorldOk(w) && ReaderOk(w, r) && r.phase.Restating? && |r.after| < |w.files|
    ensures ReaderOk(w, Restatted(w, r))
  {
    hide StatsOk, Sights, Yields;
    var n, q := |r.after|, Restatted(w, r);
    StatsSame(w, r, q);
    assert Vouched(w, n, r.before[n], r.parses[n].view, r.now) by {
      ParsedAll(w, r);
    }
    ParsesSame(w, r, q);
    hide ParsesOk;
    assert |r.parses| == |w.files| by {
      ParsedAll(w, r);
    }
  }

  lemma ParsesSame(w: World, q: Reader, r: Reader)
    requires ParsesOk(w, q.before, q.data, q.parses, q.now)
    requires r.before == q.before && r.data == q.data && r.parses == q.parses && r.now == q.now
    ensures ParsesOk(w, r.before, r.data, r.parses, r.now)
  {
  }

  lemma ParsedAll(w: World, r: Reader)
    requires ReaderOk(w, r) && r.phase.Restating?
    ensures |r.parses| == |r.data| == |w.files| == |r.before|
  {
  }

  /** A second stat that finds the stamp again vouches for what was parsed, and for what others have statted. */
  lemma RestattedFits(w: World, r: Reader, q: Reader)
    requires WorldOk(w) && ReaderOk(w, r) && ReaderOk(w, q) && r.phase.Restating? && |r.after| < |w.files| && FitsReader(q, r)
    ensures FitsReader(q, Restatted(w, r))
  {
    hide Again, Sights, Yields;
    var n, r' := |r.after|, Restatted(w, r);
    ParsedAll(w, r);
    forall k | 0 <= k < |r'.after| && r'.after[k] == r.before[k]
      ensures Agrees(q, k, r.before[k], r.parses[k].view, r.now)
    {
      if k == n {
        assert Vouched(w, n, r.before[n], r.parses[n].view, r.now);
        assert n < |q.stats| ==> Vouched(w, n, q.before[n], q.stats[n].view, q.stats[n].clock);
      } else {
        assert r.after[k] == r.before[k];
      }
    }
  }

  lemma RestatKeepsInv(s: State, i: nat)
    requires Inv(s) && Enabled(s, Restat(i))
    ensures Inv(Next(s, Restat(i)))
  {
    hide StatsOk, ParsesOk, EntryOk, WorldOk, Fits;
    var w, r := s.world, s.readers[i];
    assert ReaderOk(w, r);
    RestattedOk(w, r);
    forall j | 0 <= j < |s.readers|
      ensures FitsReader(s.readers[j], Restatted(w, r))
    {
      assert ReaderOk(w, s.readers[j]) && FitsReader(s.readers[j], r);
      RestattedFits(w, r, s.readers[j]);
    }
    PastStatsKeepsInv(s, i, Restatted(w, r));
  }

  lemma StoreKeepsInv(s: State, i: nat)
    requires Inv(s) && Enabled(s, Store(i))
    ensures Inv(Next(s, Store(i)))
  {
    hide StatsOk, ParsesOk, WorldOk, Fits;
    var r, t := s.readers[i], Updated(s, i, RESTING);
    RestingKeepsInv(s, i);
    assert ReaderOk(s.world, r);
    if Cacheable(s.needed, r) {
      var e := Entry(r.before, r.data, r.now, r.parses);
      assert EntryOk(s.world, e);
      forall j | 0 <= j < |t.readers|
        ensures FitsEntry(t.readers[j], e)
      {
        if j == i {
          FitsAny(RESTING, e.stamps, e.stamps, e.parses, e.now);
        } else {
          assert FitsReader(s.readers[j], r);
        }
      }
      CachedKeepsInv(t, e);
    }
  }

  lemma CachedKeepsInv(t: State, e: Entry)
    requires Inv(t) && EntryOk(t.world, e) && forall j :: 0 <= j < |t.readers| ==> FitsEntry(t.readers[j], e)
    ensures Inv(t.(cache := Some(e)))
  {
    hide ReaderOk, EntryOk, WorldOk, FitsReader, FitsEntry;
  }

  lemma LookupKeepsInv(s: State, i: nat)
    requires Inv(s) && Enabled(s, Lookup(i))
    ensures Inv(Next(s, Lookup(i)))
  {
    var r := s.readers[i];
    assert ReaderOk(s.world, r);
    if s.cache.Some? && s.cache.value.stamps == r.before {
      RestingKeepsInv(s, i);
      HitsIrrelevant(Updated(s, i, RESTING), Next(s, Lookup(i)));
    } else {
      WaitingKeepsInv(s, i, r.(phase := Missed));
    }
  }

  lemma HitsIrrelevant(s: State, t: State)
    requires Inv(s) && t == s.(hits := t.hits)
    ensures Inv(t)
  {
    hide ReaderOk, EntryOk, WorldOk, FitsReader, FitsEntry;
  }

  lemma WorldKeepsInv(s: State, a: Action)
    requires Inv(s) && Enabled(s, a) && (a.Tick? || a.Change?)
    ensures Inv(Next(s, a))
  {
    hide Moves, ReaderOk, EntryOk, FitsReader, FitsEntry;
    if a.Tick? {
      TickMoves(s.world, a.time);
    } else {
      ChangeMoves(s.world, a.file, a.to);
    }
    MovedKeepsInv(s, Next(s, a).world);
  }

  lemma InvalidateKeepsInv(s: State)
    requires Inv(s)
    ensures Inv(s.(cache := None))
  {
    hide ReaderOk, EntryOk, WorldOk, FitsReader, FitsEntry;
  }

  lemma NextKeepsInv(s: State, a: Action)
    requires Inv(s)
    ensures Inv(Next(s, a))
  {
    hide FitsReader, FitsEntry, EntryOk;
    if Enabled(s, a) {
      match a
      case Tick(_) => WorldKeepsInv(s, a);
      case Change(_, _) => WorldKeepsInv(s, a);
      case Invalidate => InvalidateKeepsInv(s);
      case Begin(i) => BeginKeepsInv(s, i);
      case Stat(i) => StatKeepsInv(s, i);
      case Lookup(i) => LookupKeepsInv(s, i);
      case ReadClock(i) =>
        assert ReaderOk(s.world, s.readers[i]);
        WaitingKeepsInv(s, i, s.readers[i].(phase := Parsing, now := s.world.clock));
      case Parse(i, opens) => ParseKeepsInv(s, i, opens);
      case Restat(i) => RestatKeepsInv(s, i);
      case Store(i) => StoreKeepsInv(s, i);
    }
  }

  // ------------------------------------------------------------------------------------------
  // Every hit is right, or its entry is crossed or blind.

  /** For one file: what is served was there at the parse, or already at the stat. */
  lemma ServedOne(w: World, r: Reader, e: Entry, k: nat)
    requires WorldOk(w) && ReaderOk(w, r) && EntryOk(w, e) && FitsEntry(r, e) && r.phase.Stating? && e.stamps == r.before && k < |e.data|
    ensures var h := HitFor(w, r, e);
            && k < |h.stats| && h.stats[k].version < h.until
            && (Right(w.past, h, k) <==> !Crossed(e, k) && !Blind(e, k))
            && (Crossed(e, k) ==> h.stats[k].view.Nothing?) && (Blind(e, k) ==> h.stats[k].view.Parsed? && !Opened(e, k))
            && (LongSettled(h, k) ==> (Exact(h, k) <==> !Crossed(e, k) && !Blind(e, k)))
  {
    var h := HitFor(w, r, e);
    assert Settled(e.stamps[k], e.now) && (r.before[k].Absent? <==> r.stats[k].view.Nothing?);
    assert Agrees(r, k, e.stamps[k], e.parses[k].view, e.now);
    if e.stamps[k].Stamp? && e.data[k].Parsed? {
      assert e.parses[0].version <= e.parses[k].version;
      if e.parses[0].version >= r.since {
        assert w.past[e.parses[k].version][k] == e.data[k];
        assert Held(w.past, h.since, h.until, k, e.data[k]);
      } else {
        SettledLater(e.stamps[k], e.now, r.stats[k].clock);
        assert w.past[r.stats[k].version][k] == e.data[k];
        assert Held(w.past, h.since, h.until, k, e.data[k]);
      }
    }
  }

  /** Sights in order are the moments of one walk. */
  lemma SightsExplain(w: World, sights: seq<Sight>, h: Hit)
    requires Sights(w.past, sights, 0) && |sights| == |h.entry.data| && h.until == |w.past|
    requires forall k :: 0 <= k < |sights| ==> sights[k].view == h.entry.data[k] && h.since <= sights[k].version
    ensures exists moments :: ExplainedBy(w.past, h, moments)
  {
    var moments := seq(|sights|, k requires 0 <= k < |sights| => sights[k].version);
    assert ExplainedBy(w.past, h, moments);
  }

  /** For all files together: the moments of the parses, or those of the stats. */
  lemma ServedTogether(w: World, r: Reader, e: Entry)
    requires WorldOk(w) && ReaderOk(w, r) && EntryOk(w, e) && FitsEntry(r, e) && r.phase.Stating? && e.stamps == r.before
    requires forall k :: 0 <= k < |e.data| ==> !Crossed(e, k) && Opened(e, k)
    ensures exists moments :: ExplainedBy(w.past, HitFor(w, r, e), moments)
  {
    var h, n := HitFor(w, r, e), |e.data|;
    if n == 0 || e.parses[0].version >= r.since {
      forall k | 0 <= k < n
        ensures e.parses[k].view == e.data[k] && r.since <= e.parses[k].version
      {
        assert Opened(e, k) && (k == 0 || e.parses[0].version <= e.parses[k].version);
      }
      SightsExplain(w, e.parses, h);
    } else {
      forall k | 0 <= k < n
        ensures r.stats[k].view == e.data[k] && r.since <= r.stats[k].version
      {
        assert !Crossed(e, k) && Opened(e, k) && Settled(e.stamps[k], e.now);
        assert Agrees(r, k, e.stamps[k], e.parses[k].view, e.now);
        SettledLater(e.stamps[k], e.now, r.stats[k].clock);
      }
      SightsExplain(w, r.stats, h);
    }
  }

  lemma ServedRight(w: World, r: Reader, e: Entry)
    requires WorldOk(w) && ReaderOk(w, r) && EntryOk(w, e) && FitsEntry(r, e) && r.phase.Stating? && e.stamps == r.before
    ensures HitRight(w.past, HitFor(w, r, e)) && |HitFor(w, r, e).stats| == |w.files|
  {
    var h := HitFor(w, r, e);
    forall k | 0 <= k < |h.stats|
      ensures h.stats[k].version < h.until
      ensures Right(w.past, h, k) <==> !Crossed(e, k) && !Blind(e, k)
      ensures (Crossed(e, k) ==> h.stats[k].view.Nothing?) && (Blind(e, k) ==> h.stats[k].view.Parsed? && !Opened(e, k))
      ensures LongSettled(h, k) ==> (Exact(h, k) <==> !Crossed(e, k) && !Blind(e, k))
    {
      ServedOne(w, r, e, k);
    }
    hide Right, Exact, LongSettled, ExplainedBy, Crossed, Blind, Opened;
    if forall k :: 0 <= k < |e.data| ==> !Crossed(e, k) && Opened(e, k) {
      ServedTogether(w, r, e);
    }
  }

  /** A hit stays as right as it was: its versions do not change any more. */
  lemma HitMoves(w: World, v: World, h: Hit)
    requires Moves(w, v) && HitRight(w.past, h)
    ensures HitRight(v.past, h)
  {
    forall k | 0 <= k < |h.stats|
      ensures Right(v.past, h, k) <==> Right(w.past, h, k)
    {
      HeldMoves(w, v, h, k, h.entry.data[k]);
    }
    if exists moments :: ExplainedBy(w.past, h, moments) {
      var moments :| ExplainedBy(w.past, h, moments);
      assert ExplainedBy(v.past, h, moments);
    }
  }

  lemma HeldMoves(w: World, v: World, h: Hit, k: nat, view: View)
    requires Moves(w, v) && h.until <= |w.past|
    ensures Held(w.past, h.since, h.until, k, view) <==> Held(v.past, h.since, h.until, k, view)
  {
    forall i: nat | i < h.until
      ensures v.past[i] == w.past[i]
    {
    }
  }

  lemma NextHitsRight(s: State, a: Action)
    requires Inv(s) && AllHitsRight(s)
    ensures AllHitsRight(Next(s, a))
  {
    hide HitRight, ReaderOk, EntryOk, FitsEntry, FitsReader;
    var t := Next(s, a);
    if Enabled(s, a) {
      if a.Tick? || a.Change? {
        hide Moves;
        if a.Tick? {
          TickMoves(s.world, a.time);
        } else {
          ChangeMoves(s.world, a.file, a.to);
        }
        forall i | 0 <= i < |s.hits|
          ensures HitRight(t.world.past, s.hits[i])
        {
          HitMoves(s.world, t.world, s.hits[i]);
        }
      } else if a.Lookup? {
        var r := s.readers[a.reader];
        if s.cache.Some? && s.cache.value.stamps == r.before {
          ServedRight(s.world, r, s.cache.value);
        }
      }
    }
  }

  function Run(s: State, schedule: seq<Action>): State {
    if schedule == [] then s else Next(Run(s, schedule[..|schedule| - 1]), schedule[|schedule| - 1])
  }

  lemma RunSnoc(s: State, schedule: seq<Action>, a: Action)
    ensures Run(s, schedule + [a]) == Next(Run(s, schedule), a)
  {
    assert (schedule + [a])[..|schedule|] == schedule;
  }

  function Initial(files: seq<File>, needed: seq<bool>, clock: nat, readers: nat): State {
    State(World(files, clock, [Views(files)]), needed, None, seq(readers, _ => RESTING), [])
  }

  /**
   In every interleaving of readers, writers, failing opens and clock ticks, what a cache hit says of a
   file is right exactly if the entry is neither crossed for it, that is, parsed from a file that its
   stamp says was absent, nor blind, that is, empty although its stamp says that there was a file. A
   crossed one is only served to a call that found no file, and a blind one comes from an open that
   failed. Where the stamp had settled before the call's stat, right means what was there at the stat.
   If no open failed and nothing is crossed, one walk over the files in order during the call, each at
   its moment, would have found all of the data.
   */
  lemma {:induction false} EveryInterleaving(s: State, schedule: seq<Action>)
    requires Inv(s) && AllHitsRight(s)
    ensures Inv(Run(s, schedule)) && AllHitsRight(Run(s, schedule))
  {
    hide Inv, AllHitsRight, Next;
    if schedule != [] {
      EveryInterleaving(s, schedule[..|schedule| - 1]);
      NextKeepsInv(Run(s, schedule[..|schedule| - 1]), schedule[|schedule| - 1]);
      NextHitsRight(Run(s, schedule[..|schedule| - 1]), schedule[|schedule| - 1]);
    }
  }

  /** So whoever finds a file there and gets content can rely on it. */
  lemma ThereIsRight(s: State, schedule: seq<Action>, i: nat, k: nat)
    requires Inv(s) && AllHitsRight(s) && i < |Run(s, schedule).hits|
    requires var h := Run(s, schedule).hits[i];
             k < |h.stats| && k < |h.entry.data| && h.stats[k].view.Parsed? && h.entry.data[k].Parsed?
    ensures var t := Run(s, schedule);
            var h := t.hits[i];
            && Held(t.world.past, h.since, h.until, k, h.entry.data[k])
            && (LongSettled(h, k) ==> h.entry.data[k] == h.stats[k].view)
  {
    EveryInterleaving(s, schedule);
    assert HitRight(Run(s, schedule).world.past, Run(s, schedule).hits[i]);
  }

  lemma InitialInv(files: seq<File>, needed: seq<bool>, clock: nat, readers: nat)
    requires |needed| == |files| && forall k :: 0 <= k < |files| ==> FileOk(files[k])
    ensures Inv(Initial(files, needed, clock, readers)) && AllHitsRight(Initial(files, needed, clock, readers))
  {
    hide WorldOk, ReaderOk, FitsReader;
    var s := Initial(files, needed, clock, readers);
    assert WorldOk(s.world) by {
      FirstWorld(files, clock);
    }
    RestingOk(s.world);
  }

  lemma FirstWorld(files: seq<File>, clock: nat)
    requires forall k :: 0 <= k < |files| ==> FileOk(files[k])
    ensures WorldOk(World(files, clock, [Views(files)]))
  {
  }

  lemma RestingOk(w: World)
    requires w.past != []
    ensures ReaderOk(w, RESTING) && FitsReader(RESTING, RESTING)
  {
  }

  // ------------------------------------------------------------------------------------------
  // Concrete runs on one file.

  lemma UpdatedTwice(s: State, i: nat, a: Reader, b: Reader)
    requires i < |s.readers|
    ensures Updated(Updated(s, i, a), i, b) == Updated(s, i, b)
  {
  }

  /** What one call's next step makes of it. */
  lemma StepOf(s: State, i: nat, r: Reader, opens: bool)
    requires i < |s.readers| && s.world.past != []
    ensures var w, n, t := s.world, |s.world.files|, Updated(s, i, r);
            && (r.phase.Stating? && |r.before| < n ==> Next(t, Stat(i)) == Updated(s, i, Statted(w, r)))
            && (r.phase.Stating? && |r.before| == n && !(s.cache.Some? && s.cache.value.stamps == r.before) ==>
                  Next(t, Lookup(i)) == Updated(s, i, r.(phase := Missed)))
            && (r.phase.Stating? && |r.before| == n && s.cache.Some? && s.cache.value.stamps == r.before ==>
                  Next(t, Lookup(i)) == Updated(s, i, RESTING).(hits := s.hits + [HitFor(w, r, s.cache.value)]))
            && (r.phase.Missed? ==> Next(t, ReadClock(i)) == Updated(s, i, r.(phase := Parsing, now := w.clock)))
            && (r.phase.Parsing? && |r.data| < n ==> Next(t, Parse(i, opens)) == Updated(s, i, ParsedNext(w, r, opens)))
            && (r.phase.Restating? && |r.after| < n ==> Next(t, Restat(i)) == Updated(s, i, Restatted(w, r)))
  {
    hide Statted, ParsedNext, Restatted;
    var w, t := s.world, Updated(s, i, r);
    if r.phase.Stating? && |r.before| < |w.files| {
      UpdatedTwice(s, i, r, Statted(w, r));
    }
    UpdatedTwice(s, i, r, r.(phase := Missed));
    UpdatedTwice(s, i, r, r.(phase := Parsing, now := w.clock));
    UpdatedTwice(s, i, r, RESTING);
    if r.phase.Parsing? && |r.data| < |w.files| {
      UpdatedTwice(s, i, r, ParsedNext(w, r, opens));
    }
    if r.phase.Restating? && |r.after| < |w.files| {
      UpdatedTwice(s, i, r, Restatted(w, r));
    }
  }

  function CallBegins(s: State, i: nat): State {
    Next(Next(s, Begin(i)), Stat(i))
  }

  function CallMisses(s: State, i: nat): State {
    Next(Next(CallBegins(s, i), Lookup(i)), ReadClock(i))
  }

  lemma BeginsOne(s: State, i: nat, f: File)
    requires s.world.files == [f] && s.world.past != [] && i < |s.readers| && s.readers[i] == RESTING
    ensures var n, w := |s.world.past| - 1, s.world;
            CallBegins(s, i) == Updated(s, i, Reader(Stating, [StampOf(f)], 0, [], [], n, w.clock, [Seen(w, 0)], []))
  {
    assert Next(s, Begin(i)) == Updated(s, i, Begun(s.world));
    StepOf(s, i, Begun(s.world), true);
    assert Statted(s.world, Begun(s.world)) ==
           Reader(Stating, [StampOf(f)], 0, [], [], |s.world.past| - 1, s.world.clock, [Seen(s.world, 0)], []);
  }

  lemma MissesOne(s: State, i: nat, f: File)
    requires s.world.files == [f] && s.world.past != [] && i < |s.readers| && s.readers[i] == RESTING && s.cache.None?
    ensures var n, w := |s.world.past| - 1, s.world;
            CallMisses(s, i) == Updated(s, i, Reader(Parsing, [StampOf(f)], w.clock, [], [], n, w.clock, [Seen(w, 0)], []))
  {
    hide Next;
    var n, w := |s.world.past| - 1, s.world;
    BeginsOne(s, i, f);
    var r := Reader(Stating, [StampOf(f)], 0, [], [], n, w.clock, [Seen(w, 0)], []);
    StepOf(s, i, r, true);
    StepOf(s, i, r.(phase := Missed), true);
  }

  /** The rest of an uncached call that nothing disturbs, but for an open that may fail. */
  function CallStores(s: State, i: nat, opens: bool): State {
    Next(Next(Next(CallMisses(s, i), Parse(i, opens)), Restat(i)), Store(i))
  }

  lemma StoresOne(s: State, i: nat, f: File, opens: bool)
    requires s.world.files == [f] && s.world.past != [] && i < |s.readers| && s.readers[i] == RESTING && s.cache.None?
    requires Settled(StampOf(f), s.world.clock) && (s.needed == [false] || (s.needed == [true] && opens && f.There?))
    ensures CallStores(s, i, opens) ==
            s.(cache := Some(Entry([StampOf(f)], [if opens then ViewOf(f) else Nothing], s.world.clock, [Seen(s.world, 0)])))
  {
    var w, n, v := s.world, |s.world.past| - 1, if opens then ViewOf(f) else Nothing;
    assert CallStores(s, i, opens) ==
           s.(cache := Some(Entry([StampOf(f)], [v], w.clock, [Seen(w, 0)]))) by {
      var r := Reader(Parsing, [StampOf(f)], w.clock, [], [], n, w.clock, [Seen(w, 0)], []);
      var parsed := r.(phase := Restating, data := [v], parses := [Seen(w, 0)]);
      var last := parsed.(after := [StampOf(f)]);
      assert Next(Next(CallMisses(s, i), Parse(i, opens)), Restat(i)) == Updated(s, i, last) by {
        hide Next;
        MissesOne(s, i, f);
        StepOf(s, i, r, opens);
        assert ParsedNext(w, r, opens) == parsed;
        StepOf(s, i, parsed, opens);
        assert Restatted(w, parsed) == last;
      }
      StoreEnds(s, i, last);
    }
  }

  lemma StoreEnds(s: State, i: nat, r: Reader)
    requires i < |s.readers| && s.readers[i] == RESTING && s.world.past != []
    requires r.phase.Restating? && |r.after| == |s.world.files| && Cacheable(s.needed, r)
    ensures Next(Updated(s, i, r), Store(i)) == s.(cache := Some(Entry(r.before, r.data, r.now, r.parses)))
  {
    UpdatedTwice(s, i, r, RESTING);
    assert Updated(s, i, RESTING).readers == s.readers;
  }

  function LookedUp(s: State, i: nat): State {
    Next(CallBegins(s, i), Lookup(i))
  }

  lemma LookUpOne(s: State, i: nat, f: File, e: Entry)
    requires s.world.files == [f] && s.world.past != [] && i < |s.readers| && s.readers[i] == RESTING
    requires s.cache == Some(e) && e.stamps == [StampOf(f)]
    ensures var n := |s.world.past|; LookedUp(s, i) == s.(hits := s.hits + [Hit(e, n - 1, n, [Seen(s.world, 0)])])
  {
    hide Next;
    BeginsOne(s, i, f);
    StepOf(s, i, Reader(Stating, [StampOf(f)], 0, [], [], |s.world.past| - 1, s.world.clock, [Seen(s.world, 0)], []), true);
    assert Updated(s, i, RESTING).readers == s.readers;
  }

  lemma OneFile(f: File)
    ensures Views([f]) == [ViewOf(f)]
  {
  }

  /** The file changes while a call is under way. */
  lemma ChangesOne(s: State, i: nat, r: Reader, f: File, to: File)
    requires s.world.files == [f] && s.world.past != [] && i < |s.readers| && Writable(s.world, to)
    ensures Next(Updated(s, i, r), Change(0, to)) ==
            Updated(s.(world := World([to], s.world.clock, s.world.past + [[ViewOf(to)]])), i, r)
  {
    OneFile(to);
    assert [f][0 := to] == [to];
  }

  // ------------------------------------------------------------------------------------------
  // How an entry comes to be crossed.

  /** One uncached call, during which the file appears after the first stat and goes before the second. */
  function Crossing(s: State, to: File): State {
    Next(Next(Next(Next(Next(CallMisses(s, 0), Change(0, to)), Parse(0, true)), Change(0, Missing)), Restat(0)), Store(0))
  }

  lemma CrossingStoresEntry(s: State, to: File)
    requires s == Initial([Missing], [false], 0, 1) && Enabled(s, Change(0, to)) && to.There?
    ensures Crossing(s, to) == s.(world := World([Missing], 0, [[Nothing], [Parsed(to.content)], [Nothing]]),
                                  cache := Some(Entry([Absent], [Parsed(to.content)], 0, [Sight(Parsed(to.content), 1, 0)])))
  {
    OneFile(Missing);
    var v := Parsed(to.content);
    var r := Reader(Parsing, [Absent], 0, [], [], 0, 0, [Sight(Nothing, 0, 0)], []);
    var parsed := r.(phase := Restating, data := [v], parses := [Sight(v, 1, 0)]);
    var last := parsed.(after := [Absent]);
    var there := s.(world := World([to], 0, [[Nothing], [v]]));
    var gone := s.(world := World([Missing], 0, [[Nothing], [v], [Nothing]]));
    assert Next(Next(Next(Next(CallMisses(s, 0), Change(0, to)), Parse(0, true)), Change(0, Missing)), Restat(0)) == Updated(gone, 0, last) by {
      hide Next;
      MissesOne(s, 0, Missing);
      ChangesOne(s, 0, r, Missing, to);
      assert s.world.past + [[v]] == [[Nothing], [v]];
      StepOf(there, 0, r, true);
      assert ParsedNext(there.world, r, true) == parsed;
      ChangesOne(there, 0, parsed, to, Missing);
      assert there.world.past + [[Nothing]] == [[Nothing], [v], [Nothing]];
      StepOf(gone, 0, parsed, true);
      assert Restatted(gone.world, parsed) == last;
    }
    StoreEnds(gone, 0, last);
  }

  /**
   One file that is absent before and after, but not while it is parsed: the next hit returns its
   content although the file is not there and has not been there during the call.
   */
  lemma CrossedHitIsWrong(s: State, to: File)
    requires s == Initial([Missing], [false], 0, 1) && Enabled(s, Change(0, to)) && to.There?
    ensures var t := LookedUp(Crossing(s, to), 0);
            && |t.hits| == 1 && t.world.files == [Missing] && Crossed(t.hits[0].entry, 0)
            && t.hits[0].entry.data == [Parsed(to.content)]
            && !Held(t.world.past, t.hits[0].since, t.hits[0].until, 0, Parsed(to.content))
  {
    hide Next;
    CrossingStoresEntry(s, to);
    var u := Crossing(s, to);
    LookUpOne(u, 0, Missing, u.cache.value);
  }

  // ------------------------------------------------------------------------------------------
  // How an entry comes to be blind.

  /** A file that is there and does not change cannot be opened once: the next call is served nothing. */
  lemma FailedOpenIsServed(s: State, stamp: Stamp, content: Content)
    requires stamp.Stamp? && stamp.mtime == stamp.ctime == 0
    requires s == Initial([There(stamp, content)], [false], 5 * SECOND, 1)
    ensures var seen := Sight(Parsed(content), 0, 5 * SECOND);
            var e := Entry([stamp], [Nothing], 5 * SECOND, [seen]);
            Blind(e, 0) && LookedUp(CallStores(s, 0, false), 0) == s.(cache := Some(e), hits := [Hit(e, 0, 1, [seen])])
  {
    hide Next, LookedUp, CallStores;
    StoresOne(s, 0, There(stamp, content), false);
    var u := CallStores(s, 0, false);
    LookUpOne(u, 0, There(stamp, content), u.cache.value);
  }

  // ------------------------------------------------------------------------------------------
  // Why a hit need not be what was there at the stat.

  /** A call has statted the file, which has just been rewritten, so that its stamp is the same; another call caches it. */
  function Rewriting(s: State, newer: File): State {
    CallStores(Next(Next(CallBegins(s, 0), Change(0, newer)), Tick(5 * SECOND)), 1, true)
  }

  /**
   A call stats a file; within the rounding of its stamp the file is rewritten; seconds later another
   call parses and caches it. Then the first call looks its stamp up and gets the newer content, which
   was there during the call, but not at its stat.
   */
  lemma HitAfterRewrite(s: State, stamp: Stamp, first: Content, second: Content)
    requires stamp.Stamp? && stamp.mtime == stamp.ctime == 0 && first != second
    requires s == Initial([There(stamp, first)], [true], 0, 2)
    ensures var t := Next(Rewriting(s, There(stamp, second)), Lookup(0));
            && |t.hits| == 1 && t.hits[0].entry.data == [Parsed(second)] && t.hits[0].stats == [Sight(Parsed(first), 0, 0)]
            && Plain(t.hits[0].entry)
  {
    var earlier, newer := There(stamp, first), There(stamp, second);
    OneFile(earlier);
    var r := Reader(Stating, [stamp], 0, [], [], 0, 0, [Sight(Parsed(first), 0, 0)], []);
    var rewritten := s.(world := World([newer], 0, s.world.past + [[Parsed(second)]]));
    var later := rewritten.(world := rewritten.world.(clock := 5 * SECOND));
    assert Next(Next(CallBegins(s, 0), Change(0, newer)), Tick(5 * SECOND)) == Updated(later, 0, r) by {
      BeginsOne(s, 0, earlier);
      ChangesOne(s, 0, r, earlier, newer);
    }
    var waiting := Updated(later, 0, r);
    assert waiting.readers[1] == RESTING;
    StoresOne(waiting, 1, newer, true);
    var e := Entry([stamp], [Parsed(second)], 5 * SECOND, [Seen(waiting.world, 0)]);
    var cached := later.(cache := Some(e));
    assert Rewriting(s, newer) == Updated(cached, 0, r);
    StepOf(cached, 0, r, true);
  }

  // ------------------------------------------------------------------------------------------
  // The store itself. A call that nothing disturbs is one run of the steps above.

  ghost predicate Sound(s: State) {
    Inv(s) && AllHitsRight(s)
  }

  lemma NextSound(s: State, a: Action)
    requires Sound(s)
    ensures Sound(Next(s, a))
  {
    hide Inv, AllHitsRight;
    NextKeepsInv(s, a);
    NextHitsRight(s, a);
  }

  lemma SoundFacts(s: State)
    requires Sound(s)
    ensures s.world.past != [] && |s.needed| == |s.world.files|
    ensures s.cache.Some? ==> |s.cache.value.data| == |s.cache.value.stamps| == |s.world.files|
  {
  }

  /** What parsing the files gives, if only these can be opened. */
  function Readable(files: seq<File>, opens: seq<bool>): (r: seq<View>)
    requires |opens| == |files|
    ensures |r| == |files| && forall k :: 0 <= k < |files| ==> r[k] == if opens[k] then ViewOf(files[k]) else Nothing
  {
    if files == [] then []
    else
      var n := |files| - 1;
      Readable(files[..n], opens[..n]) + [if opens[n] then ViewOf(files[n]) else Nothing]
  }

  /** What a call finds in its first files just now. */
  function Sightings(w: World, k: nat): (r: seq<Sight>)
    requires k <= |w.files| && w.past != []
    ensures |r| == k && forall j :: 0 <= j < k ==> r[j] == Seen(w, j)
  {
    if k == 0 then [] else Sightings(w, k - 1) + [Seen(w, k - 1)]
  }

  /** One call has begun and has statted some files. */
  function Statting(w: World, k: nat): Reader
    requires k <= |w.files| && w.past != []
  {
    Reader(Stating, Stamps(w.files[..k]), 0, [], [], |w.past| - 1, w.clock, Sightings(w, k), [])
  }

  /** It has parsed some files. */
  function Reading(w: World, opens: seq<bool>, k: nat): Reader
    requires k <= |w.files| == |opens| && w.past != []
  {
    Reader(if k == |w.files| && k > 0 then Restating else Parsing, Stamps(w.files), w.clock, Readable(w.files[..k], opens[..k]), [],
           |w.past| - 1, w.clock, Sightings(w, |w.files|), Sightings(w, k))
  }

  /** It has parsed all files and statted some again. */
  function Rechecking(w: World, opens: seq<bool>, k: nat): Reader
    requires k <= |w.files| == |opens| && w.past != []
  {
    Reader(Restating, Stamps(w.files), w.clock, Readable(w.files, opens), Stamps(w.files[..k]),
           |w.past| - 1, w.clock, Sightings(w, |w.files|), Sightings(w, |w.files|))
  }

  lemma PrefixStamps(files: seq<File>, k: nat)
    requires k < |files|
    ensures Stamps(files[..k + 1]) == Stamps(files[..k]) + [StampOf(files[k])]
  {
    assert files[..k + 1][..k] == files[..k];
  }

  lemma PrefixReadable(files: seq<File>, opens: seq<bool>, k: nat)
    requires k < |files| == |opens|
    ensures Readable(files[..k + 1], opens[..k + 1]) == Readable(files[..k], opens[..k]) + [if opens[k] then ViewOf(files[k]) else Nothing]
  {
    assert files[..k + 1][..k] == files[..k] && opens[..k + 1][..k] == opens[..k];
  }

  /** The state with this one call under way. */
  function Under(s: State, r: Reader): State {
    s.(readers := [r])
  }

  lemma UnderIs(s: State, r: Reader)
    requires s.readers == [RESTING]
    ensures Under(s, r) == Updated(s, 0, r)
  {
  }

  function Repeated(a: Action, n: nat): seq<Action> {
    if n == 0 then [] else Repeated(a, n - 1) + [a]
  }

  lemma OnceMore(done: seq<Action>, a: Action, n: nat)
    ensures done + Repeated(a, n + 1) == done + Repeated(a, n) + [a]
  {
  }

  function Parses(opens: seq<bool>): seq<Action> {
    if opens == [] then [] else Parses(opens[..|opens| - 1]) + [Parse(0, opens[|opens| - 1])]
  }

  /** The steps of a call up to its look at the cache, and the rest of them on a miss. */
  function LookupActions(n: nat): seq<Action> {
    [Begin(0)] + Repeated(Stat(0), n) + [Lookup(0)]
  }

  function MissActions(opens: seq<bool>): seq<Action> {
    LookupActions(|opens|) + [ReadClock(0)] + Parses(opens) + Repeated(Restat(0), |opens|) + [Store(0)]
  }

  lemma StatOne(s: State, k: nat)
    requires s.readers == [RESTING] && s.world.past != [] && k < |s.world.files|
    ensures Next(Under(s, Statting(s.world, k)), Stat(0)) == Under(s, Statting(s.world, k + 1))
  {
    var w := s.world;
    UnderIs(s, Statting(w, k));
    UnderIs(s, Statting(w, k + 1));
    hide Next;
    StepOf(s, 0, Statting(w, k), true);
    PrefixStamps(w.files, k);
    assert Statted(w, Statting(w, k)) == Statting(w, k + 1);
  }

  /** The cache is looked up: a hit, or the time is read. */
  lemma LookUp(s: State, opens: seq<bool>)
    requires s.readers == [RESTING] && s.world.past != [] && |opens| == |s.world.files| > 0
    ensures var t := Next(Under(s, Statting(s.world, |s.world.files|)), Lookup(0));
            if s.cache.Some? && s.cache.value.stamps == Stamps(s.world.files)
            then t == s.(hits := s.hits + [HitOn(s)]) else Next(t, ReadClock(0)) == Under(s, Reading(s.world, opens, 0))
  {
    var w, n := s.world, |s.world.files|;
    var r := Statting(w, n);
    UnderIs(s, r);
    UnderIs(s, RESTING);
    UnderIs(s, r.(phase := Missed));
    UnderIs(s, Reading(w, opens, 0));
    hide Next;
    assert w.files[..n] == w.files && w.files[..0] == [];
    StepOf(s, 0, r, true);
    StepOf(s, 0, r.(phase := Missed), true);
    if !(s.cache.Some? && s.cache.value.stamps == Stamps(w.files)) {
      assert r.(phase := Parsing, now := w.clock) == Reading(w, opens, 0);
    }
  }

  /** What a call that nothing disturbs finds in the cache. */
  function HitOn(s: State): Hit
    requires s.cache.Some? && s.world.past != []
  {
    Hit(s.cache.value, |s.world.past| - 1, |s.world.past|, Sightings(s.world, |s.world.files|))
  }

  lemma ParseOne(s: State, opens: seq<bool>, k: nat)
    requires s.readers == [RESTING] && s.world.past != [] && k < |s.world.files| == |opens|
    ensures Next(Under(s, Reading(s.world, opens, k)), Parse(0, opens[k])) == Under(s, Reading(s.world, opens, k + 1))
  {
    var w := s.world;
    UnderIs(s, Reading(w, opens, k));
    UnderIs(s, Reading(w, opens, k + 1));
    hide Next;
    StepOf(s, 0, Reading(w, opens, k), opens[k]);
    PrefixReadable(w.files, opens, k);
    assert ParsedNext(w, Reading(w, opens, k), opens[k]) == Reading(w, opens, k + 1);
  }

  lemma AllParsed(w: World, opens: seq<bool>)
    requires |w.files| == |opens| > 0 && w.past != []
    ensures Reading(w, opens, |w.files|) == Rechecking(w, opens, 0)
  {
    assert w.files[..|w.files|] == w.files && opens[..|opens|] == opens && w.files[..0] == [];
  }

  lemma RestatOne(s: State, opens: seq<bool>, k: nat)
    requires s.readers == [RESTING] && s.world.past != [] && k < |s.world.files| == |opens|
    ensures Next(Under(s, Rechecking(s.world, opens, k)), Restat(0)) == Under(s, Rechecking(s.world, opens, k + 1))
  {
    var w := s.world;
    UnderIs(s, Rechecking(w, opens, k));
    UnderIs(s, Rechecking(w, opens, k + 1));
    hide Next;
    StepOf(s, 0, Rechecking(w, opens, k), true);
    PrefixStamps(w.files, k);
    assert Restatted(w, Rechecking(w, opens, k)) == Rechecking(w, opens, k + 1);
  }

  /** The stamps are the same as before, as nothing has changed; whether they are old enough decides. */
  function AfterStore(s: State, opens: seq<bool>): State
    requires s.world.past != [] && |s.world.files| == |opens|
  {
    var w := s.world;
    if AllSettled(Stamps(w.files), w.clock) && Found(s.needed, Readable(w.files, opens))
    then s.(cache := Some(Entry(Stamps(w.files), Readable(w.files, opens), w.clock, Sightings(w, |w.files|)))) else s
  }

  lemma StoreResult(s: State, opens: seq<bool>)
    requires s.readers == [RESTING] && s.world.past != [] && |s.world.files| == |opens|
    ensures Next(Under(s, Rechecking(s.world, opens, |opens|)), Store(0)) == AfterStore(s, opens)
  {
    var w, n := s.world, |s.world.files|;
    assert w.files[..n] == w.files;
    var t := Next(Under(s, Rechecking(w, opens, n)), Store(0));
    assert t.readers == [RESTING];
  }

  /** A hit gives what is in the files exactly if the entry is plain. */
  lemma HitIsCurrent(s: State, t: State)
    requires Sound(t) && s.cache.Some? && s.world.past != [] && t.world == s.world && |s.cache.value.data| == |s.world.files| && HitOn(s) in t.hits
    ensures s.cache.value.data == Views(s.world.files) <==> Plain(s.cache.value)
  {
    var h, w := HitOn(s), s.world;
    assert HitRight(t.world.past, h) && WorldOk(w);
    hide Sound, HitRight, WorldOk, Crossed, Blind;
    forall k | 0 <= k < |w.files|
      ensures h.entry.data[k] == Views(w.files)[k] <==> !Crossed(h.entry, k) && !Blind(h.entry, k)
    {
      FileIsCurrent(s, k);
    }
  }

  lemma FileIsCurrent(s: State, k: nat)
    requires s.cache.Some? && s.world.past != [] && HitRight(s.world.past, HitOn(s)) && WorldOk(s.world)
    requires k < |s.world.files| == |s.cache.value.data|
    ensures s.cache.value.data[k] == Views(s.world.files)[k] <==> !Crossed(s.cache.value, k) && !Blind(s.cache.value, k)
  {
    hide Crossed, Blind;
    var h, w := HitOn(s), s.world;
    assert h.stats[k].view == ViewOf(w.files[k]) && w.past[|w.past| - 1][k] == ViewOf(w.files[k]);
    assert Right(w.past, h, k) <==> !Crossed(h.entry, k) && !Blind(h.entry, k);
    if h.entry.data[k] == ViewOf(w.files[k]) {
      assert h.entry.data[k].Parsed? ==> Held(w.past, h.since, h.until, k, h.entry.data[k]);
    }
  }

  method StatFiles(files: seq<File>, ghost s: State) returns (stamps: seq<Stamp>)
    requires s.world.files == files && s.readers == [RESTING] && s.world.past != []
    ensures stamps == Stamps(files) && Run(s, [Begin(0)] + Repeated(Stat(0), |files|)) == Under(s, Statting(s.world, |files|))
  {
    hide Statting, Next, Run;
    BeginCall(s);
    stamps := [];
    for k := 0 to |files|
      invariant Run(s, [Begin(0)] + Repeated(Stat(0), k)) == Under(s, Statting(s.world, k)) && stamps == Stamps(files[..k])
    {
      StatOne(s, k);
      RunSnoc(s, [Begin(0)] + Repeated(Stat(0), k), Stat(0));
      OnceMore([Begin(0)], Stat(0), k);
      PrefixStamps(files, k);
      stamps := stamps + [StampOf(files[k])];
    }
    assert files[..|files|] == files;
  }

  lemma BeginCall(s: State)
    requires s.readers == [RESTING] && s.world.past != []
    ensures Run(s, [Begin(0)] + Repeated(Stat(0), 0)) == Under(s, Statting(s.world, 0))
  {
    assert [Begin(0)] + [] == [] + [Begin(0)];
    RunSnoc(s, [], Begin(0));
    assert s.world.files[..0] == [];
    UnderIs(s, Begun(s.world));
  }

  method ParseFiles(files: seq<File>, opens: seq<bool>, ghost s: State, ghost done: seq<Action>) returns (data: seq<View>)
    requires s.world.files == files && |files| == |opens| > 0 && s.readers == [RESTING] && s.world.past != []
    requires Run(s, done) == Under(s, Reading(s.world, opens, 0))
    ensures data == Readable(files, opens) && Run(s, done + Parses(opens)) == Under(s, Rechecking(s.world, opens, 0))
  {
    hide Reading, Rechecking, Next, Run;
    data := [];
    assert done + Parses(opens[..0]) == done;
    for k := 0 to |files|
      invariant Run(s, done + Parses(opens[..k])) == Under(s, Reading(s.world, opens, k)) && data == Readable(files[..k], opens[..k])
    {
      ParseOne(s, opens, k);
      RunSnoc(s, done + Parses(opens[..k]), Parse(0, opens[k]));
      assert opens[..k + 1][..k] == opens[..k];
      assert done + Parses(opens[..k + 1]) == done + Parses(opens[..k]) + [Parse(0, opens[k])];
      PrefixReadable(files, opens, k);
      data := data + [if opens[k] then ViewOf(files[k]) else Nothing];
    }
    assert files[..|files|] == files && opens[..|files|] == opens;
    AllParsed(s.world, opens);
  }

  method StatAgain(files: seq<File>, opens: seq<bool>, ghost s: State, ghost done: seq<Action>) returns (stamps: seq<Stamp>)
    requires s.world.files == files && |files| == |opens| && s.readers == [RESTING] && s.world.past != []
    requires Run(s, done) == Under(s, Rechecking(s.world, opens, 0))
    ensures stamps == Stamps(files) && Run(s, done + Repeated(Restat(0), |opens|)) == Under(s, Rechecking(s.world, opens, |opens|))
  {
    hide Rechecking, Next, Run;
    stamps := [];
    assert done + Repeated(Restat(0), 0) == done;
    for k := 0 to |files|
      invariant Run(s, done + Repeated(Restat(0), k)) == Under(s, Rechecking(s.world, opens, k)) && stamps == Stamps(files[..k])
    {
      RestatOne(s, opens, k);
      RunSnoc(s, done + Repeated(Restat(0), k), Restat(0));
      OnceMore(done, Restat(0), k);
      PrefixStamps(files, k);
      stamps := stamps + [StampOf(files[k])];
    }
    assert files[..|files|] == files;
  }

  lemma RunSound(s: State, schedule: seq<Action>)
    requires Sound(s)
    ensures Sound(Run(s, schedule))
  {
    hide Inv, AllHitsRight;
    EveryInterleaving(s, schedule);
  }

  /** There is no such file, or it was written and changed at least three seconds before. */
  predicate OldEnough(f: File, now: nat) {
    f.There? && f.stamp.Stamp? ==>
      now / 1_000_000_000 >= f.stamp.mtime / 1_000_000_000 + 3 && now / 1_000_000_000 >= f.stamp.ctime / 1_000_000_000 + 3
  }

  lemma CachedIf(files: seq<File>, opens: seq<bool>, now: nat, needed: seq<bool>)
    requires |opens| == |files| == |needed|
    ensures AllSettled(Stamps(files), now) && Found(needed, Readable(files, opens)) <==>
            forall k :: 0 <= k < |files| ==> OldEnough(files[k], now) && (needed[k] ==> files[k].There? && opens[k])
  {
    var stamps, data := Stamps(files), Readable(files, opens);
    assert forall k :: 0 <= k < |files| ==> (Settled(stamps[k], now) <==> OldEnough(files[k], now));
    assert forall k :: 0 <= k < |files| ==> (data[k].Parsed? <==> files[k].There? && opens[k]);
  }

  class ConfigStore {
    const needed: seq<bool>
    var cached: bool
    var cacheStamps: seq<Stamp>
    var cacheData: seq<View>
    ghost var history: State

    /** The fields are the history's cache, and no call is under way. */
    ghost predicate Valid()
      reads this
    {
      && Sound(history) && history.readers == [RESTING] && history.needed == needed && |history.world.files| > 0
      && cached == history.cache.Some?
      && (cached ==> cacheStamps == history.cache.value.stamps && cacheData == history.cache.value.data)
    }

    constructor (needed: seq<bool>, ghost files: seq<File>, ghost clock: nat)
      requires |needed| == |files| > 0 && forall k :: 0 <= k < |files| ==> FileOk(files[k])
      ensures Valid() && !cached && history.world.files == files && history.world.clock == clock && this.needed == needed
    {
      this.needed := needed;
      cached, cacheStamps, cacheData := false, [], [];
      history := Initial(files, needed, clock, 1);
      new;
      InitialInv(files, needed, clock, 1);
      assert history.readers == [RESTING];
    }

    /** Files change, or time passes, between two calls. */
    ghost method Elsewhere(a: Action)
      requires Valid() && (a.Tick? || a.Change?)
      modifies `history
      ensures Valid() && history == Next(old(history), a)
    {
      hide Sound;
      NextSound(history, a);
      SoundFacts(history);
      history := Next(history, a);
      SoundFacts(history);
    }

    method InvalidateConfigCache()
      requires Valid()
      modifies this
      ensures Valid() && !cached && history.world == old(history.world)
    {
      hide Sound;
      NextSound(history, Invalidate);
      SoundFacts(history);
      history := Next(history, Invalidate);
      cached := false;
    }

    /**
     Reads the files through the cache. A hit returns the cached data, which is what is in the files
     exactly if the entry is plain; otherwise the data is what could be opened, and it is cached exactly
     if all stamps are old enough and the needed files were found, another that could not be opened included.
     */
    method ReadConfigFile(files: seq<File>, opens: seq<bool>, now: nat) returns (data: seq<View>)
      requires Valid() && files == history.world.files && now == history.world.clock && |opens| == |files|
      modifies this
      ensures Valid() && history.world == old(history.world)
      ensures var hit := old(cached) && old(cacheStamps) == Stamps(files);
              && history == Run(old(history), if hit then LookupActions(|files|) else MissActions(opens))
              && (hit ==> data == old(cacheData) && unchanged(`cached, `cacheStamps, `cacheData) &&
                          (data == Views(files) <==> Plain(old(history.cache.value))))
              && |data| == |files| == |needed|
              && (!hit ==> forall k :: 0 <= k < |files| ==>
                             data[k] == if files[k].There? && opens[k] then Parsed(files[k].content) else Nothing)
              && (!hit ==> if forall k :: 0 <= k < |files| ==> OldEnough(files[k], now) && (needed[k] ==> files[k].There? && opens[k])
                           then cached && cacheStamps == Stamps(files) && cacheData == data
                           else unchanged(`cached, `cacheStamps, `cacheData))
    {
      hide Sound, Plain, Statting, Reading, Rechecking, AllSettled, Found, Next, Run;
      ghost var s := history;
      SoundFacts(s);
      var before := StatFiles(files, s);
      LookUp(s, opens);
      ghost var done := LookupActions(|files|);
      RunSnoc(s, [Begin(0)] + Repeated(Stat(0), |files|), Lookup(0));
      if cached && before == cacheStamps {
        RunSound(s, done);
        history := s.(hits := s.hits + [HitOn(s)]);
        HitIsCurrent(s, history);
        return cacheData;
      }
      RunSnoc(s, done, ReadClock(0));
      done := done + [ReadClock(0)];
      data := ParseFiles(files, opens, s, done);
      done := done + Parses(opens);
      var after := StatAgain(files, opens, s, done);
      done := done + Repeated(Restat(0), |opens|);
      StoreResult(s, opens);
      CachedIf(files, opens, now, needed);
      RunSnoc(s, done, Store(0));
      RunSound(s, MissActions(opens));
      history := AfterStore(s, opens);
      if before == after && AllSettled(before, now) && Found(needed, data) {
        cached, cacheStamps, cacheData := true, before, data;
      }
    }
  }
}
