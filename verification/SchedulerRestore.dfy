/** Reading schedulers back from their plane. */
module SchedulerRestore {
  import opened Events
  import opened Planes
  import opened Rationals
  import opened SchedulerPlane
  import EcnRamp

  lemma BlockTells(words: seq<U64>, node: U64, q: Queue, at: Offsets)
    requires HasAt(words, node * NODE_WORDS, Block(Some(q), at))
    ensures var b, s := node * NODE_WORDS, q.scheduler;
            && 0 <= b <= b + NODE_WORDS <= |words|
            && words[b] == Code(s) && words[b + 1] == Classes(s)
            && (!s.Fifo? ==> words[b + 2] == at.classes) && (s.Wfq? ==> words[b + 3] == at.tags)
            && words[b + 4] == (if s.Wfq? then s.lastUpdated else if s.Drr? || s.Wrr? then s.currentClass else 0)
            && words[b + 5..b + 15] == WriteRational(if s.Wfq? then s.virtualTime else ZERO)
            && words[b + 15..b + 25] == WriteRational(ServiceTag(q))
            && words[b + 25] == (if q.ramp.Some? then 1 else 0)
            && (q.ramp.Some? ==> words[b + 26] == at.ramp && words[b + 27] == q.ramp.value.capacity &&
                                 words[b + 28] == q.ramp.value.kmin)
  {
    hide WriteRational;
    var b, block := node * NODE_WORDS, Block(Some(q), at);
    BlockParts(q, at);
    forall i: nat | i < NODE_WORDS
      ensures words[b + i] == block[i]
    {
      PartAt(words, b, block, i, i + 1);
    }
    assert words[b + 0] == block[0];
    PartAt(words, b, block, 5, 15);
    PartAt(words, b, block, 15, 25);
  }

  lemma BlockParts(q: Queue, at: Offsets)
    ensures var block, s := Block(Some(q), at), q.scheduler;
            && block[0] == Code(s) && block[1] == Classes(s)
            && (!s.Fifo? ==> block[2] == at.classes) && (s.Wfq? ==> block[3] == at.tags)
            && block[4] == (if s.Wfq? then s.lastUpdated else if s.Drr? || s.Wrr? then s.currentClass else 0)
            && block[5..15] == WriteRational(if s.Wfq? then s.virtualTime else ZERO)
            && block[15..25] == WriteRational(ServiceTag(q))
            && block[25] == (if q.ramp.Some? then 1 else 0)
            && (q.ramp.Some? ==> block[26] == at.ramp && block[27] == q.ramp.value.capacity && block[28] == q.ramp.value.kmin)
  {
    hide WriteRational, Code, Classes;
  }

  /** The record of class `c` in the plane. */
  lemma ClassTells(words: seq<U64>, s: Scheduler, classes: nat, c: nat)
    requires Even(s) && HasAt(words, classes, ClassRecords(s, Classes(s))) && c < Classes(s)
    ensures var from := classes + c * CLASS_WORDS;
            from + CLASS_WORDS <= |words| && words[from..from + CLASS_WORDS] == ClassRecord(s, c)
  {
    hide ClassRecord;
    ClassAt(s, Classes(s), c);
    PartAt(words, classes, ClassRecords(s, Classes(s)), c * CLASS_WORDS, (c + 1) * CLASS_WORDS);
  }

  /** The ramps agree in everything the device holds. */
  predicate SameRamp(a: Option<EcnRamp.Policy>, b: Option<EcnRamp.Policy>, seed: U64, node: U64) {
    match (a, b)
    case (None, None) => true
    case (Some(p), Some(r)) =>
      p.capacity == r.capacity && p.kmin == r.kmin && RampRecord(p, seed, node) == RampRecord(r, seed, node)
    case _ => false
  }

  // What can be read of a plane, whatever its words. A word outside the plane is refused.

  function WordAt(words: seq<U64>, x: nat): Option<U64> { if x < |words| then Some(words[x]) else None }

  function RationalAt(words: seq<U64>, from: nat): Option<Rational> {
    if from + RATIONAL_WORDS <= |words| then ReadRational(words[from..from + RATIONAL_WORDS]) else None
  }

  /** The plane has the ramp of the image, in every word the device holds. */
  ghost predicate RampReadable(words: seq<U64>, node: U64, seed: U64, ramp: Option<EcnRamp.Policy>) {
    var b := node * NODE_WORDS;
    match ramp
    case None => WordAt(words, b + 25) == Some(0)
    case Some(p) =>
      && RampRecord(p, seed, node).Some? && WordAt(words, b + 25) == Some(1) && WordAt(words, b + 26).Some?
      && WordAt(words, b + 27) == Some(p.capacity) && WordAt(words, b + 28) == Some(p.kmin)
      && HasAt(words, words[b + 26], RampRecord(p, seed, node).value)
  }

  /** Checks the marking ramp of the image against the plane. */
  method CheckRamp(words: seq<U64>, node: U64, seed: U64, ramp: Option<EcnRamp.Policy>) returns (ok: bool)
    ensures ok <==> RampReadable(words, node, seed, ramp)
  {
    hide EcnRamp.Span, EcnRamp.QueueKey;
    var b := node * NODE_WORDS;
    if ramp.None? {
      return WordAt(words, b + 25) == Some(0);
    }
    if WordAt(words, b + 26).None? {
      return false;
    }
    var record, expected := words[b + 26], RampRecord(ramp.value, seed, node);
    if expected.None? || WordAt(words, b + 25) != Some(1) {
      return false;
    }
    if WordAt(words, b + 27) != Some(ramp.value.capacity) || WordAt(words, b + 28) != Some(ramp.value.kmin) {
      return false;
    }
    ok := record + RAMP_WORDS <= |words| && words[record..record + RAMP_WORDS] == expected.value;
  }

  /** The record of class `c` has the fixed value, and a counter. */
  predicate ClassReadable(words: seq<U64>, classes: nat, fixed: seq<U64>, c: nat)
    requires c < |fixed|
  {
    var from := classes + c * CLASS_WORDS;
    WordAt(words, from) == Some(fixed[c]) && WordAt(words, from + 1).Some?
  }

  ghost predicate AllClassesReadable(words: seq<U64>, classes: nat, fixed: seq<U64>) {
    forall c: nat | c < |fixed| :: ClassReadable(words, classes, fixed, c)
  }

  /** The counters of the first classes stand in the plane. */
  ghost predicate CountersAre(words: seq<U64>, classes: nat, counters: seq<U64>) {
    forall c: nat | c < |counters| :: WordAt(words, classes + c * CLASS_WORDS + 1) == Some(counters[c])
  }

  /** The counters of all classes, if the plane has the fixed values of the image. */
  method ReadCounters(words: seq<U64>, classes: nat, fixed: seq<U64>) returns (r: Option<seq<U64>>)
    ensures r.Some? <==> AllClassesReadable(words, classes, fixed)
    ensures r.Some? ==> |r.value| == |fixed| && CountersAre(words, classes, r.value)
  {
    var read: seq<U64> := [];
    for c: nat := 0 to |fixed|
      invariant |read| == c && CountersAre(words, classes, read)
      invariant forall k: nat | k < c :: ClassReadable(words, classes, fixed, k)
    {
      var from := classes + c * CLASS_WORDS;
      if !ClassReadable(words, classes, fixed, c) {
        return None;
      }
      read := read + [words[from + 1]];
    }
    return Some(read);
  }

  ghost predicate FinishAre(words: seq<U64>, classes: nat, finish: seq<Rational>) {
    forall c: nat | c < |finish| :: RationalAt(words, classes + c * CLASS_WORDS + 2) == Some(finish[c])
  }

  predicate FinishReadable(words: seq<U64>, classes: nat, c: nat) {
    RationalAt(words, classes + c * CLASS_WORDS + 2).Some?
  }

  ghost predicate AllFinishReadable(words: seq<U64>, classes: nat, count: nat) {
    forall c: nat | c < count :: FinishReadable(words, classes, c)
  }

  /** Finish times of all classes, if none has a zero denominator. */
  method ReadFinishTimes(words: seq<U64>, classes: nat, count: nat) returns (r: Option<seq<Rational>>)
    ensures r.Some? <==> AllFinishReadable(words, classes, count)
    ensures r.Some? ==> |r.value| == count && FinishAre(words, classes, r.value)
  {
    hide ReadRational;
    var read: seq<Rational> := [];
    for c: nat := 0 to count
      invariant |read| == c && FinishAre(words, classes, read)
      invariant forall k: nat | k < c :: FinishReadable(words, classes, k)
    {
      var time := RationalAt(words, classes + c * CLASS_WORDS + 2);
      if time.None? {
        assert !FinishReadable(words, classes, c);
        return None;
      }
      read := read + [time.value];
    }
    return Some(read);
  }

  /** The finish tag beside slot `i` of the ring. */
  function TagAt(words: seq<U64>, tags: nat, ring: Ring, i: nat): Option<Rational> {
    assert Slot(ring, i) * RATIONAL_WORDS >= 0;
    RationalAt(words, tags + Slot(ring, i) * RATIONAL_WORDS)
  }

  ghost predicate AllTagsReadable(words: seq<U64>, tags: nat, ring: Ring, count: nat) {
    forall i: nat | i < count :: TagAt(words, tags, ring, i).Some?
  }

  /** Packet `x` last stands at place `i` of the first `n`. */
  ghost predicate LastAt(packets: seq<U64>, n: nat, x: U64, i: nat) {
    i < n <= |packets| && packets[i] == x && forall j | i < j < n :: packets[j] != x
  }

  ghost predicate HasRead(words: seq<U64>, tags: nat, packets: seq<U64>, ring: Ring, n: nat, x: U64, tag: Rational) {
    exists i: nat :: LastAt(packets, n, x, i) && TagAt(words, tags, ring, i) == Some(tag)
  }

  /** The tags of the first `n` waiting packets; of a packet that waits twice, the later one. */
  ghost predicate TagsAre(words: seq<U64>, tags: nat, packets: seq<U64>, ring: Ring, n: nat, read: map<U64, Rational>)
    requires n <= |packets|
  {
    && (forall x :: x in read <==> x in packets[..n])
    && (forall x | x in read :: HasRead(words, tags, packets, ring, n, x, read[x]))
  }

  lemma OneMoreTag(words: seq<U64>, tags: nat, packets: seq<U64>, ring: Ring, n: nat, read: map<U64, Rational>, tag: Rational)
    requires n < |packets| && TagsAre(words, tags, packets, ring, n, read) && TagAt(words, tags, ring, n) == Some(tag)
    ensures TagsAre(words, tags, packets, ring, n + 1, read[packets[n] := tag])
  {
    hide TagAt;
    var more := read[packets[n] := tag];
    assert packets[..n + 1] == packets[..n] + [packets[n]];
    forall x | x in more
      ensures HasRead(words, tags, packets, ring, n + 1, x, more[x])
    {
      if x == packets[n] {
        assert LastAt(packets, n + 1, x, n);
      } else {
        var i: nat :| LastAt(packets, n, x, i) && TagAt(words, tags, ring, i) == Some(read[x]);
        assert LastAt(packets, n + 1, x, i);
      }
    }
  }

  /** The finish tags of the waiting packets, if none has a zero denominator. */
  method ReadTags(words: seq<U64>, tags: nat, packets: seq<U64>, ring: Ring) returns (r: Option<map<U64, Rational>>)
    ensures r.Some? <==> AllTagsReadable(words, tags, ring, |packets|)
    ensures r.Some? ==> TagsAre(words, tags, packets, ring, |packets|, r.value)
  {
    hide TagAt, TagsAre;
    var read: map<U64, Rational> := map[];
    NoTags(words, tags, packets, ring);
    for i: nat := 0 to |packets|
      invariant TagsAre(words, tags, packets, ring, i, read)
      invariant forall k: nat | k < i :: TagAt(words, tags, ring, k).Some?
    {
      var tag := TagAt(words, tags, ring, i);
      if tag.None? {
        return None;
      }
      OneMoreTag(words, tags, packets, ring, i, read, tag.value);
      read := read[packets[i] := tag.value];
    }
    return Some(read);
  }

  lemma NoTags(words: seq<U64>, tags: nat, packets: seq<U64>, ring: Ring)
    ensures TagsAre(words, tags, packets, ring, 0, map[])
  {
  }

  /** The values that the image fixes for each class. */
  function FixedOf(s: Scheduler): seq<U64> {
    match s
    case Fifo => []
    case StaticPriority(priorities) => priorities
    case Wfq(weights, _, _, _, _, _) => weights
    case Drr(quanta, _, _) => quanta
    case Wrr(shares, _, _) => shares
  }

  /** The words of the block of `node` that hold a scheduler with classes, and its class records. */
  ghost predicate ClassesReadable(words: seq<U64>, node: U64, s: Scheduler) {
    var b := node * NODE_WORDS;
    && WordAt(words, b + 1) == Some(|FixedOf(s)|) && WordAt(words, b + 2).Some? && WordAt(words, b + 4).Some?
    && AllClassesReadable(words, words[b + 2], FixedOf(s))
  }

  /** All rationals of fair queueing can be read. */
  ghost predicate FairReadable(words: seq<U64>, node: U64, ring: Ring, image: Queue) {
    var b := node * NODE_WORDS;
    && RationalAt(words, b + 5).Some? && WordAt(words, b + 2).Some? && WordAt(words, b + 3).Some?
    && AllFinishReadable(words, words[b + 2], |FixedOf(image.scheduler)|)
    && AllTagsReadable(words, words[b + 3], ring, |image.packets|)
    && (image.inService.Some? ==> RationalAt(words, b + 15).Some?)
  }

  /** The plane has a scheduler of the image's kind, with the ramp and the class values that the image
      fixes, and every word and every rational that is read is there. */
  ghost predicate Readable(words: seq<U64>, node: U64, seed: U64, ring: Ring, image: Queue) {
    var s := image.scheduler;
    && WordAt(words, node * NODE_WORDS) == Some(Code(s)) && RampReadable(words, node, seed, image.ramp)
    && (!s.Fifo? && !s.StaticPriority? ==> ClassesReadable(words, node, s))
    && (s.Wfq? ==> FairReadable(words, node, ring, image))
  }

  /** The state that the plane holds for the scheduler of the image. */
  ghost predicate IsRead(words: seq<U64>, node: U64, ring: Ring, image: Queue, r: Scheduler) {
    var b, s := node * NODE_WORDS, image.scheduler;
    match r
    case Fifo => r == s
    case StaticPriority(_) => r == s
    case Wfq(weights, active, finish, virtualTime, lastUpdated, tags) =>
      && s.Wfq? && weights == s.weights && b + 4 < |words|
      && |active| == |finish| == |weights| && CountersAre(words, words[b + 2], active) && FinishAre(words, words[b + 2], finish)
      && RationalAt(words, b + 5) == Some(virtualTime) && lastUpdated == words[b + 4]
      && exists waiting :: TagsAre(words, words[b + 3], image.packets, ring, |image.packets|, waiting) &&
           tags == WithService(words, b, image.inService, waiting)
    case Drr(quanta, deficits, currentClass) =>
      && s.Drr? && quanta == s.quanta && b + 4 < |words|
      && |deficits| == |quanta| && CountersAre(words, words[b + 2], deficits) && currentClass == words[b + 4]
    case Wrr(shares, sent, currentClass) =>
      && s.Wrr? && shares == s.shares && b + 4 < |words|
      && |sent| == |shares| && CountersAre(words, words[b + 2], sent) && currentClass == words[b + 4]
  }

  /** The tags with that of the packet in service. */
  function WithService(words: seq<U64>, b: nat, inService: Option<U64>, waiting: map<U64, Rational>): map<U64, Rational> {
    if inService.Some? && RationalAt(words, b + 15).Some? then waiting[inService.value := RationalAt(words, b + 15).value]
    else waiting
  }

  /** Restores the scheduler of a node from a plane of any words. It is refused exactly when the plane
      disagrees with what the image fixes, is too short or has a rational with a zero denominator;
      otherwise the image's scheduler gets the state in the plane. */
  method RestoreScheduler(words: seq<U64>, node: U64, seed: U64, ring: Ring, image: Queue) returns (r: Option<Scheduler>)
    ensures r.Some? <==> Readable(words, node, seed, ring, image)
    ensures r.Some? ==> IsRead(words, node, ring, image, r.value)
  {
    hide RampReadable, CountersAre, AllClassesReadable, FairReadable, RationalAt, TagsAre, FinishAre, WithService;
    var b, s := node * NODE_WORDS, image.scheduler;
    if WordAt(words, b) != Some(Code(s)) {
      return None;
    }
    var ok := CheckRamp(words, node, seed, image.ramp);
    if !ok {
      return None;
    }
    if s.Fifo? || s.StaticPriority? {
      return Some(s);
    }
    if WordAt(words, b + 1) != Some(|FixedOf(s)|) || WordAt(words, b + 4).None? {
      return None;
    }
    var counters := ReadCounters(words, words[b + 2], FixedOf(s));
    if counters.None? {
      return None;
    }
    match s {
      case Wfq(weights, _, _, _, _, _) =>
        r := RestoreFair(words, node, ring, image, counters.value);
      case Drr(quanta, _, _) =>
        return Some(Drr(quanta, counters.value, words[b + 4]));
      case Wrr(shares, _, _) =>
        return Some(Wrr(shares, counters.value, words[b + 4]));
    }
  }

  /** The times and tags of fair queueing. */
  method RestoreFair(words: seq<U64>, node: U64, ring: Ring, image: Queue, counters: seq<U64>) returns (r: Option<Scheduler>)
    requires image.scheduler.Wfq? && node * NODE_WORDS + 4 < |words| && |counters| == |image.scheduler.weights|
    requires CountersAre(words, words[node * NODE_WORDS + 2], counters)
    ensures r.Some? <==> FairReadable(words, node, ring, image)
    ensures r.Some? ==> IsRead(words, node, ring, image, r.value)
  {
    hide CountersAre, FinishAre, RationalAt, TagsAre, AllFinishReadable, AllTagsReadable, WithService;
    var b, weights := node * NODE_WORDS, image.scheduler.weights;
    var virtualTime := RationalAt(words, b + 5);
    if virtualTime.None? {
      return None;
    }
    var finish := ReadFinishTimes(words, words[b + 2], |weights|);
    if finish.None? {
      return None;
    }
    var waiting := ReadTags(words, words[b + 3], image.packets, ring);
    if waiting.None? || (image.inService.Some? && RationalAt(words, b + 15).None?) {
      return None;
    }
    var tags := WithService(words, b, image.inService, waiting.value);
    return Some(Wfq(weights, counters, finish.value, virtualTime.value, words[b + 4], tags));
  }

  // A plane that was laid out.

  /** The schedulers agree in what the image fixes. Priorities are not compared. */
  predicate SameKind(a: Scheduler, b: Scheduler) {
    match (a, b)
    case (Fifo, Fifo) => true
    case (StaticPriority(_), StaticPriority(_)) => true
    case (Wfq(w, _, _, _, _, _), Wfq(v, _, _, _, _, _)) => w == v
    case (Drr(w, _, _), Drr(v, _, _)) => w == v
    case (Wrr(w, _, _), Wrr(v, _, _)) => w == v
    case _ => false
  }

  lemma RampComesBack(words: seq<U64>, node: U64, seed: U64, ramp: Option<EcnRamp.Policy>, q: Queue, at: Offsets)
    requires HasAt(words, node * NODE_WORDS, Block(Some(q), at))
    requires q.ramp.Some? ==> RampAt(words, q.ramp.value, seed, node, at.ramp)
    ensures RampReadable(words, node, seed, ramp) <==> SameRamp(ramp, q.ramp, seed, node)
  {
    hide WriteRational, EcnRamp.Span, EcnRamp.QueueKey;
    BlockTells(words, node, q, at);
  }

  /** The first two words of a class record: what the image fixes, and the counter. */
  function CountersOf(s: Scheduler): seq<U64>
    requires Lists(s)
  {
    match s
    case Fifo => []
    case StaticPriority(priorities) => seq(|priorities|, _ => 0)
    case Wfq(_, active, _, _, _, _) => active
    case Drr(_, deficits, _) => deficits
    case Wrr(_, sent, _) => sent
  }

  lemma CountersComeBack(words: seq<U64>, classes: nat, s: Scheduler, c: nat)
    requires Even(s) && HasAt(words, classes, ClassRecords(s, Classes(s))) && c < Classes(s)
    ensures |FixedOf(s)| == |CountersOf(s)| == Classes(s)
    ensures WordAt(words, classes + c * CLASS_WORDS) == Some(FixedOf(s)[c])
    ensures WordAt(words, classes + c * CLASS_WORDS + 1) == Some(CountersOf(s)[c])
  {
    hide ClassRecords, WriteRational;
    ClassTells(words, s, classes, c);
    var from := classes + c * CLASS_WORDS;
    assert words[from] == words[from..from + CLASS_WORDS][0] && words[from + 1] == words[from..from + CLASS_WORDS][1];
  }

  lemma FinishComesBack(words: seq<U64>, s: Scheduler, classes: nat, c: nat)
    requires s.Wfq? && Even(s) && HasAt(words, classes, ClassRecords(s, Classes(s))) && c < Classes(s)
    ensures RationalAt(words, classes + c * CLASS_WORDS + 2) == Some(s.finish[c])
  {
    hide ReadRational, WriteRational, ClassRecords;
    ClassTells(words, s, classes, c);
    var base := classes + c * CLASS_WORDS;
    PartAt(words, base, ClassRecord(s, c), 2, 12);
    assert ClassRecord(s, c)[2..12] == WriteRational(s.finish[c]);
    RationalComesBack(s.finish[c]);
  }

  lemma TagComesBack(words: seq<U64>, tags: nat, q: Queue, ring: Ring, i: nat)
    requires q.scheduler.Wfq? && Tagged(q) && i < |q.packets|
    requires TagsAt(words, tags, q.packets, q.scheduler.tags, ring, |q.packets|)
    ensures TagAt(words, tags, ring, i) == Some(q.scheduler.tags[q.packets[i]])
  {
    hide ReadRational, WriteRational, Slot;
    assert HasAt(words, tags + Slot(ring, i) * RATIONAL_WORDS, WriteRational(q.scheduler.tags[q.packets[i]]));
    RationalComesBack(q.scheduler.tags[q.packets[i]]);
  }

  lemma SameLists(words: seq<U64>, classes: nat, s: Scheduler, counters: seq<U64>)
    requires Even(s) && HasAt(words, classes, ClassRecords(s, Classes(s))) && |counters| == Classes(s)
    requires CountersAre(words, classes, counters)
    ensures counters == CountersOf(s)
  {
    hide ClassRecords, WordAt;
    forall c: nat | c < |counters|
      ensures |CountersOf(s)| == |counters| && counters[c] == CountersOf(s)[c]
    {
      CountersComeBack(words, classes, s, c);
    }
    if counters == [] {
      assert CountersOf(s) == [];
    }
  }

  lemma SameFinish(words: seq<U64>, classes: nat, s: Scheduler, finish: seq<Rational>)
    requires s.Wfq? && Even(s) && HasAt(words, classes, ClassRecords(s, Classes(s))) && |finish| == Classes(s)
    requires FinishAre(words, classes, finish)
    ensures finish == s.finish
  {
    hide ClassRecords, RationalAt;
    forall c: nat | c < |finish|
      ensures finish[c] == s.finish[c]
    {
      FinishComesBack(words, s, classes, c);
    }
  }

  lemma FixedComesBack(words: seq<U64>, classes: nat, s: Scheduler, fixed: seq<U64>)
    requires Even(s) && HasAt(words, classes, ClassRecords(s, Classes(s))) && |fixed| == Classes(s)
    ensures AllClassesReadable(words, classes, fixed) <==> fixed == FixedOf(s)
  {
    hide ClassRecords, HasAt, WordAt, CountersOf;
    FixedCount(s);
    forall c: nat | c < |fixed|
      ensures ClassReadable(words, classes, fixed, c) <==> fixed[c] == FixedOf(s)[c]
    {
      CountersComeBack(words, classes, s, c);
    }
  }

  /** The class values of the image are those in the plane exactly if they are those that were laid out. */
  lemma ClassesComeBack(words: seq<U64>, node: U64, s: Scheduler, q: Queue, at: Offsets)
    requires Even(q.scheduler) && HasAt(words, node * NODE_WORDS, Block(Some(q), at))
    requires HasAt(words, at.classes, ClassRecords(q.scheduler, Classes(q.scheduler)))
    requires !s.Fifo? && !s.StaticPriority? && Code(s) == Code(q.scheduler)
    ensures ClassesReadable(words, node, s) <==> FixedOf(s) == FixedOf(q.scheduler)
  {
    hide WriteRational, ClassRecords, Block, HasAt, AllClassesReadable, Classes, FixedOf;
    BlockTells(words, node, q, at);
    FixedCount(q.scheduler);
    if |FixedOf(s)| == Classes(q.scheduler) {
      FixedComesBack(words, at.classes, q.scheduler, FixedOf(s));
    }
  }

  lemma ServiceComesBack(words: seq<U64>, node: U64, q: Queue, at: Offsets)
    requires q.scheduler.Wfq? && Even(q.scheduler) && Tagged(q) && HasAt(words, node * NODE_WORDS, Block(Some(q), at))
    ensures RationalAt(words, node * NODE_WORDS + 5) == Some(q.scheduler.virtualTime)
    ensures q.inService.Some? ==> RationalAt(words, node * NODE_WORDS + 15) == Some(q.scheduler.tags[q.inService.value])
  {
    hide WriteRational, ReadRational, Block;
    BlockTells(words, node, q, at);
    RationalComesBack(q.scheduler.virtualTime);
    if q.inService.Some? {
      RationalComesBack(q.scheduler.tags[q.inService.value]);
    }
  }

  lemma AllFinishComeBack(words: seq<U64>, s: Scheduler, classes: nat)
    requires s.Wfq? && Even(s) && HasAt(words, classes, ClassRecords(s, Classes(s)))
    ensures AllFinishReadable(words, classes, Classes(s))
  {
    hide ClassRecords, HasAt, RationalAt;
    forall c: nat | c < Classes(s)
      ensures FinishReadable(words, classes, c)
    {
      FinishComesBack(words, s, classes, c);
    }
  }

  lemma AllTagsComeBack(words: seq<U64>, tags: nat, q: Queue, ring: Ring)
    requires q.scheduler.Wfq? && Tagged(q) && TagsAt(words, tags, q.packets, q.scheduler.tags, ring, |q.packets|)
    ensures AllTagsReadable(words, tags, ring, |q.packets|)
  {
    hide TagsAt, TagAt, AllTagged;
    forall i: nat | i < |q.packets|
      ensures TagAt(words, tags, ring, i).Some?
    {
      TagComesBack(words, tags, q, ring, i);
    }
  }

  /** Everything of fair queueing that was laid out can be read. */
  lemma FairComesBack(words: seq<U64>, node: U64, ring: Ring, image: Queue, q: Queue, seed: U64, at: Offsets)
    requires q.scheduler.Wfq? && Even(q.scheduler) && Tagged(q) && NodeAt(words, node, q, ring, seed, at)
    requires |FixedOf(image.scheduler)| == Classes(q.scheduler)
    requires image.packets == q.packets && image.inService == q.inService
    ensures FairReadable(words, node, ring, image)
  {
    hide WriteRational, ClassRecords, RationalAt, TagsAt, RampAt, Block, HasAt, AllFinishReadable, AllTagsReadable, Even, Tagged,
      FixedOf, Classes;
    BlockTells(words, node, q, at);
    ServiceComesBack(words, node, q, at);
    AllFinishComeBack(words, q.scheduler, at.classes);
    AllTagsComeBack(words, at.tags, q, ring);
  }

  lemma SameFixed(a: Scheduler, b: Scheduler)
    requires Code(a) == Code(b)
    ensures SameKind(a, b) <==> (a.Fifo? || a.StaticPriority? || FixedOf(a) == FixedOf(b))
  {
  }

  lemma SameCode(a: Scheduler, b: Scheduler)
    requires SameKind(a, b)
    ensures Code(a) == Code(b)
  {
  }

  /** A scheduler that was laid out can be read back into an image exactly if the image agrees with it in
      what images fix. */
  lemma ReadableAgain(words: seq<U64>, node: U64, seed: U64, ring: Ring, image: Queue, q: Queue, at: Offsets)
    requires Even(q.scheduler) && Tagged(q) && NodeAt(words, node, q, ring, seed, at)
    requires image.packets == q.packets && image.inService == q.inService
    ensures Readable(words, node, seed, ring, image) <==>
            SameKind(image.scheduler, q.scheduler) && SameRamp(image.ramp, q.ramp, seed, node)
  {
    hide WriteRational, ClassRecords, RampReadable, SameRamp, RampRecord, FairReadable, ClassesReadable, TagsAt, FixedOf, SameKind;
    var s := image.scheduler;
    BlockTells(words, node, q, at);
    RampComesBack(words, node, seed, image.ramp, q, at);
    if SameKind(s, q.scheduler) {
      SameCode(s, q.scheduler);
    }
    if Code(s) == Code(q.scheduler) {
      SameFixed(s, q.scheduler);
      if !s.Fifo? && !s.StaticPriority? {
        ClassesComeBack(words, node, s, q, at);
        if s.Wfq? && FixedOf(s) == FixedOf(q.scheduler) {
          FixedCount(q.scheduler);
          FairComesBack(words, node, ring, image, q, seed, at);
        }
      }
    }
  }

  lemma FixedCount(s: Scheduler)
    ensures |FixedOf(s)| == Classes(s)
  {
  }

  /** The tags read are those of the waiting packets and of the one in service: all, if no other has one. */
  lemma TagsComeBack(words: seq<U64>, node: U64, tags: nat, q: Queue, ring: Ring, at: Offsets, waiting: map<U64, Rational>)
    requires q.scheduler.Wfq? && Even(q.scheduler) && Tagged(q) && HasAt(words, node * NODE_WORDS, Block(Some(q), at))
    requires TagsAt(words, tags, q.packets, q.scheduler.tags, ring, |q.packets|)
    requires TagsAre(words, tags, q.packets, ring, |q.packets|, waiting)
    ensures WithService(words, node * NODE_WORDS, q.inService, waiting) == q.scheduler.tags <==> NoOtherTag(q)
  {
    hide RationalAt, TagAt, TagsAt, Block, Slot;
    ServiceComesBack(words, node, q, at);
    assert q.packets[..|q.packets|] == q.packets;
    forall x | x in waiting
      ensures x in q.packets && x in q.scheduler.tags && waiting[x] == q.scheduler.tags[x]
    {
      assert HasRead(words, tags, q.packets, ring, |q.packets|, x, waiting[x]);
      var i: nat :| LastAt(q.packets, |q.packets|, x, i) && TagAt(words, tags, ring, i) == Some(waiting[x]);
      TagComesBack(words, tags, q, ring, i);
    }
    var all := WithService(words, node * NODE_WORDS, q.inService, waiting);
    assert forall x | x in all :: x in q.scheduler.tags && all[x] == q.scheduler.tags[x];
    assert forall x :: x in all <==> x in q.packets || q.inService == Some(x);
  }

  /** What is read back from a scheduler that was laid out is that scheduler; static priorities are those of
      the image. */
  lemma ComesBack(words: seq<U64>, node: U64, seed: U64, ring: Ring, image: Queue, q: Queue, at: Offsets, r: Scheduler)
    requires Even(q.scheduler) && Tagged(q) && NodeAt(words, node, q, ring, seed, at)
    requires image.packets == q.packets && image.inService == q.inService && SameKind(image.scheduler, q.scheduler)
    requires IsRead(words, node, ring, image, r)
    ensures !q.scheduler.StaticPriority? ==> (r == q.scheduler <==> NoOtherTag(q))
    ensures q.scheduler.StaticPriority? ==> r == image.scheduler
  {
    hide WriteRational, ClassRecords, CountersAre, FinishAre, TagsAre, TagsAt, RationalAt, RampRecord, WithService;
    BlockTells(words, node, q, at);
    match r
    case Fifo =>
    case StaticPriority(_) =>
    case Drr(_, deficits, _) => SameLists(words, at.classes, q.scheduler, deficits);
    case Wrr(_, sent, _) => SameLists(words, at.classes, q.scheduler, sent);
    case Wfq(_, active, finish, _, _, tags) =>
      SameLists(words, at.classes, q.scheduler, active);
      SameFinish(words, at.classes, q.scheduler, finish);
      ServiceComesBack(words, node, q, at);
      var waiting :| TagsAre(words, words[node * NODE_WORDS + 3], image.packets, ring, |image.packets|, waiting) &&
                     tags == WithService(words, node * NODE_WORDS, image.inService, waiting);
      TagsComeBack(words, node, at.tags, q, ring, at, waiting);
  }
}
