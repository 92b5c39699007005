/** The registry cache when reads and writes interleave: a look-up reads the table in one step and fills the cache
    in a later one, so a stale entry can outlive the delete; how long it can be served
    (internal/stablecoin/registry.go). */
module RegistryTimed {
  import opened Wrappers
  import opened Registry

  /** cacheTTL in milliseconds. */
  const CACHE_TTL := 600_000

  const TEN_MINUTES := 10 * 60 * 1000

  /** A version of the table and when it was committed. */
  datatype Version = Version(at: int, rows: Table)

  /** A cached answer is asked for by one look-up or by the list. */
  datatype Question = OneOf(token: string, chain: Chain, chainID: string) | Whole

  predicate Answers(t: Table, q: Question, v: Cached) {
    match q
    case OneOf(token, chain, chainID) => v.One? && Serves(t, v.entry, token, chain, chainID)
    case Whole => v == All(Enabled(t))
  }

  /** A reader between its database read and its cache write: the version it read, when, and what it found. */
  datatype Reader = Reader(version: nat, readAt: int, found: Cached)

  /** A cached answer, with the reader that wrote it and when. */
  datatype Item = Item(reader: Reader, setAt: int)

  /** One key; `now` is the time of the last step. */
  datatype Timed = Timed(history: seq<Version>, readers: map<nat, Reader>, item: Option<Item>, now: int)

  datatype Event =
    | Write(rows: Table)               // an upsert or disable commits
    | Delete                           // its DEL
    | Read(pid: nat, found: Cached)    // a reader misses and reads the table
    | Fill(pid: nat)                   // its SET, with the TTL
    | Hit(found: Cached)               // a reader is answered from the cache
    | Evict

  predicate Fresh(i: Item, now: int) {
    now < i.setAt + CACHE_TTL
  }

  /** Is the event possible at this time? */
  predicate Possible(q: Question, s: Timed, ev: Event, now: int) {
    && s.history != [] && s.now <= now
    && match ev
       case Write(_) => true
       case Delete => true
       case Read(pid, found) => pid !in s.readers && Answers(s.history[|s.history| - 1].rows, q, found)
       case Fill(pid) => pid in s.readers
       case Hit(found) => s.item.Some? && Fresh(s.item.value, now) && s.item.value.reader.found == found
       case Evict => true
  }

  function Happened(s: Timed, ev: Event, now: int): Timed
    requires s.history != []
    requires ev.Fill? ==> ev.pid in s.readers
  {
    var s := s.(now := now);
    match ev
    case Write(rows) => s.(history := s.history + [Version(now, rows)])
    case Delete => s.(item := None)
    case Read(pid, found) => s.(readers := s.readers[pid := Reader(|s.history| - 1, now, found)])
    case Fill(pid) => s.(item := Some(Item(s.readers[pid], now)), readers := s.readers - {pid})
    case Hit(_) => s
    case Evict => s.(item := None)
  }

  predicate IsTimedRun(q: Question, states: seq<Timed>, events: seq<(Event, int)>) {
    && |states| == |events| + 1
    && forall i :: 0 <= i < |events| ==>
         Possible(q, states[i], events[i].0, events[i].1) && states[i + 1] == Happened(states[i], events[i].0, events[i].1)
  }

  predicate Started(s: Timed) {
    |s.history| == 1 && s.history[0].at <= s.now && s.readers == map[] && s.item == None
  }

  // ---- Invariant ----

  /** The reader read what its version answers, and every later version came at or after its read. */
  predicate ReaderOk(q: Question, s: Timed, r: Reader) {
    && r.version < |s.history| && r.readAt <= s.now
    && Answers(s.history[r.version].rows, q, r.found)
    && forall w :: r.version < w < |s.history| ==> r.readAt <= s.history[w].at
  }

  ghost predicate TimedInv(q: Question, s: Timed) {
    && s.history != []
    && (forall pid :: pid in s.readers ==> ReaderOk(q, s, s.readers[pid]))
    && (s.item.Some? ==> ReaderOk(q, s, s.item.value.reader) && s.item.value.reader.readAt <= s.item.value.setAt <= s.now)
  }

  lemma EventKeepsInv(q: Question, s: Timed, ev: Event, now: int)
    requires TimedInv(q, s) && Possible(q, s, ev, now)
    ensures TimedInv(q, Happened(s, ev, now))
  {
    var s' := Happened(s, ev, now);
    forall pid | pid in s'.readers ensures ReaderOk(q, s', s'.readers[pid]) {
      if pid in s.readers { assert ReaderOk(q, s, s.readers[pid]); }
    }
    if ev.Fill? { assert ReaderOk(q, s, s.readers[ev.pid]); }
  }

  lemma {:induction false} RunKeepsInv(q: Question, states: seq<Timed>, events: seq<(Event, int)>, i: nat)
    requires IsTimedRun(q, states, events) && Started(states[0]) && i <= |events|
    ensures TimedInv(q, states[i])
    decreases i
  {
    if i > 0 {
      RunKeepsInv(q, states, events, i - 1);
      EventKeepsInv(q, states[i - 1], events[i - 1].0, events[i - 1].1);
    }
  }

  /** A cache hit, of a look-up or of the list, is what some version of the table answers; if a later version no longer
      does, that version is younger than the TTL plus the time the reader that filled the cache took from its read to its
      write. */
  lemma StaleHitIsBounded(q: Question, states: seq<Timed>, events: seq<(Event, int)>, i: nat, w: nat)
    requires IsTimedRun(q, states, events) && Started(states[0]) && i < |events| && events[i].0.Hit?
    requires w < |states[i].history|
    ensures states[i].item.Some?
    ensures var s, found, item := states[i], events[i].0.found, states[i].item.value;
      && item.reader.version < |s.history|
      && Answers(s.history[item.reader.version].rows, q, found)
      && (item.reader.version < w && !Answers(s.history[w].rows, q, found)
          ==> events[i].1 - s.history[w].at < TEN_MINUTES + (item.setAt - item.reader.readAt))
  {
    RunKeepsInv(q, states, events, i);
    assert Possible(q, states[i], events[i].0, events[i].1);
  }

  /** A reader reads, a row is disabled and the key deleted, and only then the reader fills the cache. */
  function Race(found: Cached, disabled: Table, gap: nat): seq<(Event, int)> {
    [(Read(0, found), 0), (Write(disabled), 0), (Delete, 0), (Fill(0), gap), (Hit(found), gap + CACHE_TTL - 1)]
  }

  /** The row matters to the question. */
  predicate Concerns(t: Table, q: Question, v: Cached, id: string) {
    id in t && t[id].enabled && (q.OneOf? ==> v.One? && v.entry.id == id)
  }

  lemma DisableChangesAnswer(t: Table, q: Question, v: Cached, id: string)
    requires Answers(t, q, v) && Concerns(t, q, v, id)
    ensures !Answers(t[id := t[id].(enabled := false)], q, v)
  {
    if q.Whole? {
      var t' := t[id := t[id].(enabled := false)];
      assert id in EnabledIDs(t);
      assert InfoOf(id, t[id]) in Enabled(t);
      assert InfoOf(id, t[id]) !in Enabled(t');
    }
  }

  /** The bound is reached, for every question, answer and gap: a reader that reads before a disable and fills the cache
      `gap` later, after the delete, is served to the last instant. */
  lemma BoundIsTight(q: Question, rows: Table, found: Cached, id: string, gap: nat) returns (states: seq<Timed>)
    requires Answers(rows, q, found) && Concerns(rows, q, found, id)
    ensures var disabled := rows[id := rows[id].(enabled := false)];
      IsTimedRun(q, states, Race(found, disabled, gap)) && Started(states[0])
    ensures var s, hit := states[4], Race(found, rows, gap)[4].1;
      && |s.history| == 2 && !Answers(s.history[1].rows, q, found)
      && hit - s.history[1].at == TEN_MINUTES + gap - 1
  {
    var disabled := rows[id := rows[id].(enabled := false)];
    DisableChangesAnswer(rows, q, found, id);
    var r := Reader(0, 0, found);
    var v0, v1 := Version(0, rows), Version(0, disabled);
    var s0 := Timed([v0], map[], None, 0);
    var s1 := Timed([v0], map[0 := r], None, 0);
    var s2 := Timed([v0, v1], map[0 := r], None, 0);
    var s4 := Timed([v0, v1], map[], Some(Item(r, gap)), gap);
    assert s1 == Happened(s0, Read(0, found), 0);
    assert s2 == Happened(s1, Write(disabled), 0);
    assert s4 == Happened(s2, Fill(0), gap);
    states := [s0, s1, s2, s2, s4, s4.(now := gap + CACHE_TTL - 1)];
  }
}
