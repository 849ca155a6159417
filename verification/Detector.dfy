/** The superagent's stuck detector. */
module Detector {
  // A ring buffer of call hashes; every breach of the repeat threshold escalates.

  type Hash = h: nat | h < 0x1_0000_0000_0000_0000

  datatype StuckLevel = StuckNone | StuckWarn | StuckReflect | StuckForceExit

  datatype Event = Call(hash: Hash) | Reset

  // ---------- What a log of records and resets amounts to ----------

  function Recorded(log: seq<Event>): seq<Hash> {
    if log == [] then []
    else
      var before := Recorded(log[..|log| - 1]);
      if log[|log| - 1].Call? then before + [log[|log| - 1].hash] else before
  }

  function LastOf(hs: seq<Hash>, windowSize: nat): (r: seq<Hash>)
    ensures |r| == if |hs| < windowSize then |hs| else windowSize
  {
    if |hs| <= windowSize then hs else hs[|hs| - windowSize..]
  }

  /** Some hash occurs often enough. */
  ghost predicate Repeats(hs: seq<Hash>, threshold: int) {
    exists h :: h in hs && multiset(hs)[h] >= threshold
  }

  /** The log ends with a record that finds a repetition in the window. */
  ghost predicate Breach(log: seq<Event>, windowSize: nat, threshold: int) {
    log != [] && log[|log| - 1].Call? && Repeats(LastOf(Recorded(log), windowSize), threshold)
  }

  /** Breaches since the last reset. */
  ghost function Breaches(log: seq<Event>, windowSize: nat, threshold: int): nat {
    if log == [] || log[|log| - 1].Reset? then 0
    else Breaches(log[..|log| - 1], windowSize, threshold) + if Breach(log, windowSize, threshold) then 1 else 0
  }

  function LevelOf(breaches: nat): StuckLevel {
    if breaches == 0 then StuckNone else if breaches == 1 then StuckWarn
    else if breaches == 2 then StuckReflect else StuckForceExit
  }

  /** What the record at the end of a log must signal. */
  ghost function Signal(log: seq<Event>, windowSize: nat, threshold: int): StuckLevel {
    if Breach(log, windowSize, threshold) then LevelOf(Breaches(log, windowSize, threshold)) else StuckNone
  }

  /** Until it is full the buffer grows; from then on it holds the last records, the oldest at head. */
  ghost predicate Ring(w: seq<Hash>, head: nat, count: nat, hs: seq<Hash>, windowSize: nat) {
    && |w| == windowSize > 0
    && (if |hs| < windowSize then count == head == |hs| && w[..head] == hs
        else count == windowSize && head < windowSize && w[head..] + w[..head] == LastOf(hs, windowSize))
  }

  // ---------- The detector ----------

  class StuckDetector {
    const windowSize: nat
    const repeatThreshold: int
    const window: array<Hash>
    var head: nat
    var count: nat
    var breachCount: nat
    ghost var log: seq<Event>

    constructor (windowSize: nat, repeatThreshold: int)
      requires windowSize > 0
      ensures this.windowSize == windowSize && this.repeatThreshold == repeatThreshold
      ensures Valid() && log == [] && fresh(window)
    {
      this.windowSize, this.repeatThreshold := windowSize, repeatThreshold;
      window := new Hash[windowSize](_ => 0);
      head, count, breachCount := 0, 0, 0;
      log := [];
    }

    ghost predicate Valid()
      reads this, window
    {
      && Ring(window[..], head, count, Recorded(log), windowSize)
      && breachCount == Breaches(log, windowSize, repeatThreshold)
    }

    /** Overwrites the oldest entry. */
    method Push(hash: Hash)
      requires Valid()
      modifies this`head, this`count, window
      ensures Ring(window[..], head, count, Recorded(log + [Call(hash)]), windowSize)
    {
      hide Ring, Breaches;
      ghost var hs, w, h, n := Recorded(log), window[..], head, count;
      RingBounds(w, h, n, hs, windowSize);
      RecordedMore(log, hash);
      ModNext(head, windowSize);
      window[head] := hash;
      head := (head + 1) % windowSize;
      if count < windowSize {
        count := count + 1;
      }
      assert window[..] == w[..h] + [hash] + w[h + 1..];
      RingPush(w, h, n, hs, hash, windowSize);
    }

    /** How often each hash occurs in the filled part of the buffer. */
    method CountHashes() returns (counts: map<Hash, nat>)
      requires count <= window.Length
      ensures forall h :: h in counts <==> h in window[..count]
      ensures forall h :: h in counts ==> counts[h] == multiset(window[..count])[h]
    {
      counts := map[];
      for i := 0 to count
        invariant forall h :: h in counts <==> h in window[..i]
        invariant forall h :: h in counts ==> counts[h] == multiset(window[..i])[h]
      {
        var h := window[i];
        assert window[..i + 1] == window[..i] + [h];
        counts := counts[h := (if h in counts then counts[h] else 0) + 1];
      }
    }

    /** Signals a breach exactly when some hash fills the threshold within the last windowSize records. */
    method Record(hash: Hash) returns (level: StuckLevel)
      requires Valid()
      modifies this, window
      ensures Valid() && log == old(log) + [Call(hash)]
      ensures level == Signal(log, windowSize, repeatThreshold)
      ensures level == StuckNone <==> !Repeats(LastOf(Recorded(log), windowSize), repeatThreshold)
      ensures level != StuckNone ==>
                (level == StuckWarn <==> old(breachCount) == 0) && (level == StuckReflect <==> old(breachCount) == 1) &&
                breachCount == old(breachCount) + 1
      ensures level == StuckNone ==> breachCount == old(breachCount)
    {
      hide Recorded, Repeats, LastOf, Ring;
      ghost var log' := log + [Call(hash)];
      ghost var recent := LastOf(Recorded(log'), windowSize);
      assert log'[..|log|] == log;
      Push(hash);
      RingHolds(window[..], head, count, Recorded(log'), windowSize);
      assert window[..][..count] == window[..count];
      var counts := CountHashes();
      CountsTell(counts, window[..count], recent, repeatThreshold);
      log := log';
      var hashes := counts.Keys;
      while hashes != {}
        invariant hashes <= counts.Keys
        invariant forall h :: h in counts.Keys - hashes ==> counts[h] < repeatThreshold
        decreases |hashes|
      {
        var h :| h in hashes;
        if counts[h] >= repeatThreshold {
          breachCount := breachCount + 1;
          if breachCount == 1 {
            return StuckWarn;
          } else if breachCount == 2 {
            return StuckReflect;
          } else {
            return StuckForceExit;
          }
        }
        hashes := hashes - {h};
      }
      return StuckNone;
    }

    method ResetBreaches()
      requires Valid()
      modifies this`breachCount, this`log
      ensures Valid() && log == old(log) + [Reset]
    {
      assert (log + [Reset])[..|log|] == log;
      breachCount := 0;
      log := log + [Reset];
    }
  }

  lemma RecordedMore(log: seq<Event>, hash: Hash)
    ensures Recorded(log + [Call(hash)]) == Recorded(log) + [hash]
  {
    assert (log + [Call(hash)])[..|log|] == log;
  }

  lemma ModNext(h: nat, n: nat)
    requires h < n
    ensures (h + 1) % n == if h + 1 == n then 0 else h + 1
  {
  }

  lemma LastSlides(hs: seq<Hash>, hash: Hash, windowSize: nat)
    requires |hs| >= windowSize > 0
    ensures LastOf(hs + [hash], windowSize) == LastOf(hs, windowSize)[1..] + [hash]
  {
    var k := |hs| - windowSize;
    assert (hs + [hash])[k + 1..] == hs[k + 1..] + [hash];
    assert hs[k..][1..] == hs[k + 1..];
  }

  /** The buffer as two parts around the entry that is overwritten. */
  lemma Overwritten(a: seq<Hash>, x: Hash, b: seq<Hash>, hash: Hash)
    ensures ([x] + b + a)[1..] + [hash] == b + (a + [hash])
    ensures multiset(a + [hash] + b) == multiset(b + (a + [hash]))
  {
    assert ([x] + b + a)[1..] == b + a;
  }

  /** Overwriting the oldest entry and stepping the head keeps the last windowSize records in order. */
  lemma RingTurns(w: seq<Hash>, h: nat, hs: seq<Hash>, hash: Hash, windowSize: nat)
    requires |w| == windowSize > 0 && h < windowSize && |hs| >= windowSize
    requires w[h..] + w[..h] == LastOf(hs, windowSize)
    ensures var w' := w[..h] + [hash] + w[h + 1..];
            var h' := if h + 1 == windowSize then 0 else h + 1;
            w'[h'..] + w'[..h'] == LastOf(hs + [hash], windowSize)
  {
    hide LastOf;
    var a, b := w[..h], w[h + 1..];
    var w' := a + [hash] + b;
    LastSlides(hs, hash, windowSize);
    assert w[h..] + a == [w[h]] + b + a;
    Overwritten(a, w[h], b, hash);
    if h + 1 == windowSize {
      assert b == [] && w'[0..] == a + [hash] && w'[..0] == [];
    } else {
      assert w'[h + 1..] == b && w'[..h + 1] == a + [hash];
    }
  }

  lemma RingFills(w: seq<Hash>, hs: seq<Hash>, hash: Hash, windowSize: nat)
    requires |w| == windowSize && |hs| < windowSize && w[..|hs|] == hs
    ensures var w' := w[..|hs|] + [hash] + w[|hs| + 1..];
            w'[..|hs| + 1] == hs + [hash] == LastOf(hs + [hash], windowSize)
  {
  }

  lemma RingBounds(w: seq<Hash>, head: nat, count: nat, hs: seq<Hash>, windowSize: nat)
    requires Ring(w, head, count, hs, windowSize)
    ensures head < windowSize == |w| && count <= windowSize
  {
  }

  lemma RingPush(w: seq<Hash>, head: nat, count: nat, hs: seq<Hash>, hash: Hash, windowSize: nat)
    requires Ring(w, head, count, hs, windowSize)
    ensures var w' := w[..head] + [hash] + w[head + 1..];
            var head' := if head + 1 == windowSize then 0 else head + 1;
            Ring(w', head', if count < windowSize then count + 1 else count, hs + [hash], windowSize)
  {
    hide LastOf;
    if |hs| < windowSize {
      RingFills(w, hs, hash, windowSize);
      var w' := w[..head] + [hash] + w[head + 1..];
      if |hs| + 1 == windowSize {
        assert w'[0..] == w'[..head + 1] && w'[..0] == [];
      }
    } else {
      RingTurns(w, head, hs, hash, windowSize);
    }
  }

  /** The filled part holds the last records, in some order. */
  lemma RingHolds(w: seq<Hash>, head: nat, count: nat, hs: seq<Hash>, windowSize: nat)
    requires Ring(w, head, count, hs, windowSize)
    ensures count <= |w| && multiset(w[..count]) == multiset(LastOf(hs, windowSize))
  {
    if |hs| >= windowSize {
      assert w[..count] == w[..head] + w[head..];
    }
  }

  lemma CountsTell(counts: map<Hash, nat>, filled: seq<Hash>, recent: seq<Hash>, threshold: int)
    requires multiset(filled) == multiset(recent)
    requires forall h :: h in counts <==> h in filled
    requires forall h :: h in counts ==> counts[h] == multiset(filled)[h]
    ensures Repeats(recent, threshold) <==> exists h :: h in counts && counts[h] >= threshold
  {
    assert forall h :: h in filled <==> h in multiset(filled);
    assert forall h :: h in recent <==> h in multiset(recent);
  }

  // ---------- Consequences ----------

  /** Only the window matters: a repetition is forgotten once windowSize other records have followed it. */
  lemma OldRecordsForgotten(before: seq<Hash>, recent: seq<Hash>, windowSize: nat, threshold: int)
    requires |recent| >= windowSize
    ensures Repeats(LastOf(before + recent, windowSize), threshold) <==> Repeats(LastOf(recent, windowSize), threshold)
  {
    assert LastOf(before + recent, windowSize) == LastOf(recent, windowSize);
  }

  /** A detector whose threshold exceeds its window never signals anything. */
  lemma WideThresholdNeverBreaches(hs: seq<Hash>, windowSize: nat, threshold: int)
    requires threshold > windowSize
    ensures !Repeats(LastOf(hs, windowSize), threshold)
  {
    var recent := LastOf(hs, windowSize);
    forall h | h in recent ensures multiset(recent)[h] < threshold {
      assert |multiset(recent)| == |recent|;
    }
  }
}
