/**
 * The session query service over an in-memory store: the stored sessions and
 * instructions are sequences in insertion order, and ids come from counters.
 * Queries are pure selections over the stored rows; creating a session or
 * adding an instruction appends a row and assigns the next id.
 */
module MeditationService {
  import opened Wrappers
  import opened Sequences
  import opened Models

  /** A fetched session with its instructions loaded, in step order. */
  datatype LoadedSession = LoadedSession(session: Session, instructions: seq<Instruction>)

  // ---------------------------------------------------------------------
  // Queries
  // ---------------------------------------------------------------------

  /** `get_active_sessions`: the active sessions, in storage order. */
  function GetActiveSessions(sessions: seq<Session>): (r: seq<Session>)
    ensures forall s :: s in r <==> s in sessions && s.isActive
    ensures forall s :: multiset(r)[s] == if s.isActive then multiset(sessions)[s] else 0
    ensures IsSubsequence(r, sessions)
  {
    FilterMultiplicity(sessions, (s: Session) => s.isActive);
    Filter(sessions, (s: Session) => s.isActive)
  }

  /** `get_sessions_by_type`: the active sessions of type `t`, in storage order. */
  function GetSessionsByType(sessions: seq<Session>, t: MeditationType): (r: seq<Session>)
    ensures forall s :: s in r <==> s in sessions && s.isActive && s.meditationType == t
    ensures forall s ::
              multiset(r)[s] == if s.isActive && s.meditationType == t then multiset(sessions)[s] else 0
    ensures IsSubsequence(r, sessions)
  {
    FilterMultiplicity(sessions, (s: Session) => s.meditationType == t && s.isActive);
    Filter(sessions, (s: Session) => s.meditationType == t && s.isActive)
  }

  /** `get_sessions_by_difficulty`: the active sessions of level `d`, in storage order. */
  function GetSessionsByDifficulty(sessions: seq<Session>, d: DifficultyLevel): (r: seq<Session>)
    ensures forall s :: s in r <==> s in sessions && s.isActive && s.difficultyLevel == d
    ensures forall s ::
              multiset(r)[s] == if s.isActive && s.difficultyLevel == d then multiset(sessions)[s] else 0
    ensures IsSubsequence(r, sessions)
  {
    FilterMultiplicity(sessions, (s: Session) => s.difficultyLevel == d && s.isActive);
    Filter(sessions, (s: Session) => s.difficultyLevel == d && s.isActive)
  }

  /** Primary-key lookup: the first stored session with this id, active or not. */
  function FindSession(sessions: seq<Session>, id: int): (r: Option<Session>)
    ensures r.Some? ==> r.value in sessions && r.value.id == id
    ensures r.None? <==> forall s :: s in sessions ==> s.id != id
  {
    if sessions == [] then None
    else if sessions[0].id == id then Some(sessions[0])
    else FindSession(sessions[1..], id)
  }

  /**
   * A session created without a difficulty gets BEGINNER and is active, so
   * the beginner, type and active listings all include it.
   */
  lemma DefaultSessionListed(sessions: seq<Session>, id: int, title: string, description: string,
                             t: MeditationType, minutes: int)
    ensures var d := NewSessionCreate(title, description, t, minutes);
      var s := Session(id, d.title, d.description, d.meditationType, d.difficultyLevel, d.durationMinutes, true);
      && s in GetSessionsByDifficulty(sessions + [s], Beginner)
      && s in GetSessionsByType(sessions + [s], t)
      && s in GetActiveSessions(sessions + [s])
  {
  }

  predicate SortedByStepOrder(s: seq<Instruction>) {
    forall i, j :: 0 <= i < j < |s| ==> s[i].stepOrder <= s[j].stepOrder
  }

  /** Places `x` into a sequence already in step order. */
  function InsertByStepOrder(x: Instruction, s: seq<Instruction>): (r: seq<Instruction>)
    requires SortedByStepOrder(s)
    ensures SortedByStepOrder(r)
    ensures multiset(r) == multiset(s) + multiset{x}
  {
    if s == [] then [x]
    else if x.stepOrder <= s[0].stepOrder then [x] + s
    else
      var rest := InsertByStepOrder(x, s[1..]);
      assert s == [s[0]] + s[1..];
      LowerBoundKept(s[0], s[1..], x, rest);
      [s[0]] + rest
  }

  /**
   * A step order at or below every element of `s` and `x` is at or below
   * every element of any rearrangement of them.
   */
  lemma LowerBoundKept(h: Instruction, s: seq<Instruction>, x: Instruction, rest: seq<Instruction>)
    requires forall j :: 0 <= j < |s| ==> h.stepOrder <= s[j].stepOrder
    requires h.stepOrder <= x.stepOrder
    requires multiset(rest) == multiset(s) + multiset{x}
    ensures forall k :: 0 <= k < |rest| ==> h.stepOrder <= rest[k].stepOrder
  {
    forall k | 0 <= k < |rest| ensures h.stepOrder <= rest[k].stepOrder {
      assert rest[k] in multiset(rest);
      if rest[k] != x {
        assert rest[k] in multiset(s);
        var m :| 0 <= m < |s| && s[m] == rest[k];
      }
    }
  }

  /**
   * `ORDER BY step_order`: a rearrangement of `s` in non-decreasing step
   * order.  How ties are broken is left open; nothing below depends on it.
   */
  function SortByStepOrder(s: seq<Instruction>): (r: seq<Instruction>)
    ensures SortedByStepOrder(r)
    ensures multiset(r) == multiset(s)
  {
    if s == [] then []
    else
      assert s == [s[0]] + s[1..];
      InsertByStepOrder(s[0], SortByStepOrder(s[1..]))
  }

  /** The stored instructions of session `sid`, sorted by step order. */
  function InstructionsOf(instructions: seq<Instruction>, sid: int): (r: seq<Instruction>)
    ensures SortedByStepOrder(r)
    ensures forall i :: i in r <==> i in instructions && i.sessionId == sid
    ensures forall i :: multiset(r)[i] == if i.sessionId == sid then multiset(instructions)[i] else 0
  {
    var mine := Filter(instructions, (i: Instruction) => i.sessionId == sid);
    FilterMultiplicity(instructions, (i: Instruction) => i.sessionId == sid);
    var r := SortByStepOrder(mine);
    assert forall i :: i in r <==> i in multiset(mine);
    r
  }

  /**
   * `get_session_by_id`: nothing for an absent id or an id no session has;
   * otherwise that session with its instructions in step order.
   */
  function GetSessionById(sessions: seq<Session>, instructions: seq<Instruction>, id: Option<int>): (r: Option<LoadedSession>)
    ensures id.None? ==> r.None?
    ensures r.Some? <==> id.Some? && exists s :: s in sessions && s.id == id.value
    ensures r.Some? ==> r.value.session in sessions && r.value.session.id == id.value
    ensures r.Some? ==> SortedByStepOrder(r.value.instructions)
    ensures r.Some? ==> forall i :: i in r.value.instructions <==> i in instructions && i.sessionId == id.value
    ensures r.Some? ==> forall i ::
              multiset(r.value.instructions)[i] == if i.sessionId == id.value then multiset(instructions)[i] else 0
  {
    if id.None? then None
    else
      match FindSession(sessions, id.value)
      case None => None
      case Some(s) => Some(LoadedSession(s, InstructionsOf(instructions, id.value)))
  }

  /** A fetched session carries only stored rows, so it keeps their field rules. */
  lemma LoadedInstructionsValid(sessions: seq<Session>, instructions: seq<Instruction>, id: Option<int>)
    requires forall k :: 0 <= k < |instructions| ==> ValidInstruction(instructions[k])
    ensures var r := GetSessionById(sessions, instructions, id);
      r.Some? ==> forall k :: 0 <= k < |r.value.instructions| ==> ValidInstruction(r.value.instructions[k])
  {
    var r := GetSessionById(sessions, instructions, id);
    if r.Some? {
      forall k | 0 <= k < |r.value.instructions| ensures ValidInstruction(r.value.instructions[k]) {
        var x := r.value.instructions[k];
        assert x in instructions;
        var m :| 0 <= m < |instructions| && instructions[m] == x;
      }
    }
  }

  // ---------------------------------------------------------------------
  // Ordering lemmas
  // ---------------------------------------------------------------------

  /** Within `s`, two instructions with the same step order are the same row. */
  ghost predicate StepOrdersIdentify(s: seq<Instruction>) {
    forall i, j :: 0 <= i < |s| && 0 <= j < |s| && s[i].stepOrder == s[j].stepOrder ==> s[i] == s[j]
  }

  /**
   * Two sequences in step order holding the same instructions are equal,
   * provided a step order identifies its instruction.
   */
  lemma {:induction false} SortedPermutationsEqual(a: seq<Instruction>, b: seq<Instruction>)
    requires SortedByStepOrder(a) && SortedByStepOrder(b)
    requires multiset(a) == multiset(b)
    requires StepOrdersIdentify(a)
    ensures a == b
    decreases |a|
  {
    if a != [] {
      SortedHeadsEqual(a, b);
      TailsSameMultiset(a, b);
      TailKeepsOrder(a);
      TailKeepsOrder(b);
      SortedPermutationsEqual(a[1..], b[1..]);
      assert a == [a[0]] + a[1..];
    }
  }

  /** The tail of a step-ordered sequence is step-ordered and keeps step orders identifying. */
  lemma TailKeepsOrder(a: seq<Instruction>)
    requires a != [] && SortedByStepOrder(a)
    ensures SortedByStepOrder(a[1..])
    ensures StepOrdersIdentify(a) ==> StepOrdersIdentify(a[1..])
  {
  }

  /** Dropping a common first element keeps the rest a rearrangement. */
  lemma TailsSameMultiset(a: seq<Instruction>, b: seq<Instruction>)
    requires multiset(a) == multiset(b)
    requires a != [] && b != [] && a[0] == b[0]
    ensures multiset(a[1..]) == multiset(b[1..])
  {
    assert a == [a[0]] + a[1..];
    assert b == [b[0]] + b[1..];
    assert multiset(a[1..]) == multiset(a) - multiset{a[0]};
    assert multiset(b[1..]) == multiset(b) - multiset{b[0]};
  }

  /** The first elements of two such sequences coincide. */
  lemma SortedHeadsEqual(a: seq<Instruction>, b: seq<Instruction>)
    requires SortedByStepOrder(a) && SortedByStepOrder(b)
    requires multiset(a) == multiset(b)
    requires StepOrdersIdentify(a)
    requires a != []
    ensures b != [] && a[0] == b[0]
  {
    assert a[0] in multiset(b);
    assert b != [];
    assert b[0] in multiset(a);
    var k :| 0 <= k < |b| && b[k] == a[0];
    var j :| 0 <= j < |a| && a[j] == b[0];
    assert b[0].stepOrder <= a[0].stepOrder;
    assert a[0].stepOrder <= b[0].stepOrder;
  }

  /**
   * The instructions fetched for a session do not depend on the order they
   * were stored in, as long as their step orders are distinct.
   */
  lemma InstructionsOrderIndependent(xs: seq<Instruction>, ys: seq<Instruction>, sid: int)
    requires multiset(xs) == multiset(ys)
    requires forall x, y :: (x in xs && y in xs && x.sessionId == sid && y.sessionId == sid &&
      x.stepOrder == y.stepOrder) ==> x == y
    ensures InstructionsOf(xs, sid) == InstructionsOf(ys, sid)
  {
    var a, b := InstructionsOf(xs, sid), InstructionsOf(ys, sid);
    assert forall i :: multiset(a)[i] == multiset(b)[i];
    assert multiset(a) == multiset(b);
    forall i, j | 0 <= i < |a| && 0 <= j < |a| && a[i].stepOrder == a[j].stepOrder
      ensures a[i] == a[j]
    {
      assert a[i] in a && a[j] in a;
    }
    SortedPermutationsEqual(a, b);
  }

  // ---------------------------------------------------------------------
  // The store and its writes
  // ---------------------------------------------------------------------

  /** The rows `SeedInstructions` appends: step orders 1..n in list order, ids from `firstId`. */
  function Numbered(firstId: int, sid: int, steps: seq<(string, int)>): (r: seq<Instruction>)
    ensures |r| == |steps|
    ensures forall k :: 0 <= k < |r| ==> r[k].stepOrder == k + 1 && r[k].sessionId == sid
  {
    seq(|steps|, k requires 0 <= k < |steps| =>
      Instruction(firstId + k, sid, k + 1, steps[k].0, Some(steps[k].1), false))
  }

  /** Every step text fits an instruction and every duration is non-negative. */
  predicate ValidSteps(steps: seq<(string, int)>) {
    forall k :: 0 <= k < |steps| ==> |steps[k].0| <= MaxInstructionTextLength && steps[k].1 >= 0
  }

  /**
   * Seeded instructions of a session no earlier row belongs to come back from
   * `get_session_by_id` exactly in list order.
   */
  lemma SeededInstructionsFetchInOrder(before: seq<Instruction>, firstId: int, sid: int, steps: seq<(string, int)>)
    requires forall i :: i in before ==> i.sessionId != sid
    ensures InstructionsOf(before + Numbered(firstId, sid, steps), sid) == Numbered(firstId, sid, steps)
  {
    var n := Numbered(firstId, sid, steps);
    var p := (i: Instruction) => i.sessionId == sid;
    FilterAppend(before, n, p);
    FilterNone(before, p);
    FilterAll(n, p);
    NumberedInStepOrder(firstId, sid, steps);
    var r := SortByStepOrder(Filter(before + n, p));
    assert r == InstructionsOf(before + n, sid);
    SortedPermutationsEqual(n, r);
  }

  /** Numbered rows are in step order, and a step order names exactly one of them. */
  lemma NumberedInStepOrder(firstId: int, sid: int, steps: seq<(string, int)>)
    ensures SortedByStepOrder(Numbered(firstId, sid, steps))
    ensures StepOrdersIdentify(Numbered(firstId, sid, steps))
  {
    var n := Numbered(firstId, sid, steps);
    forall x, y | x in n && y in n && x.stepOrder == y.stepOrder ensures x == y {
      var k :| 0 <= k < |n| && n[k] == x;
      var l :| 0 <= l < |n| && n[l] == y;
    }
  }

  class SessionStore {
    var sessions: seq<Session>
    var instructions: seq<Instruction>
    var nextSessionId: int
    var nextInstructionId: int

    /** Ids are positive, below their counter and unique; every row obeys its field rules. */
    ghost predicate Valid()
      reads this
    {
      && 1 <= nextSessionId && 1 <= nextInstructionId
      && (forall k :: 0 <= k < |sessions| ==> 1 <= sessions[k].id < nextSessionId && ValidSession(sessions[k]))
      && (forall k, l :: 0 <= k < l < |sessions| ==> sessions[k].id != sessions[l].id)
      && (forall k :: 0 <= k < |instructions| ==>
            1 <= instructions[k].id < nextInstructionId && ValidInstruction(instructions[k]))
      && (forall k, l :: 0 <= k < l < |instructions| ==> instructions[k].id != instructions[l].id)
    }

    /** An empty store. */
    constructor ()
      ensures Valid()
      ensures sessions == [] && instructions == []
      ensures nextSessionId == 1 && nextInstructionId == 1
    {
      sessions, instructions := [], [];
      nextSessionId, nextInstructionId := 1, 1;
    }

    /**
     * `create_session`: stores the given fields unchanged under a fresh id;
     * the new session is active.  Category ids are not stored.
     */
    method CreateSession(data: SessionCreate) returns (s: Session)
      requires Valid() && ValidSessionCreate(data)
      modifies this
      ensures Valid()
      ensures s == Session(old(nextSessionId), data.title, data.description, data.meditationType,
                           data.difficultyLevel, data.durationMinutes, true)
      ensures forall t :: t in old(sessions) ==> t.id != s.id
      ensures sessions == old(sessions) + [s] && instructions == old(instructions)
      ensures nextSessionId == old(nextSessionId) + 1 && nextInstructionId == old(nextInstructionId)
    {
      s := Session(nextSessionId, data.title, data.description, data.meditationType,
                   data.difficultyLevel, data.durationMinutes, true);
      sessions := sessions + [s];
      nextSessionId := nextSessionId + 1;
    }

    /**
     * `add_instruction`: stores the given fields unchanged under a fresh id;
     * sessions are untouched.  The session id is not checked against the
     * stored sessions (the foreign key is not enforced).
     */
    method AddInstruction(data: InstructionCreate) returns (i: Instruction)
      requires Valid() && ValidInstructionCreate(data)
      modifies this
      ensures Valid()
      ensures i == Instruction(old(nextInstructionId), data.sessionId, data.stepOrder, data.instructionText,
                               data.durationSeconds, data.isPause)
      ensures forall j :: j in old(instructions) ==> j.id != i.id
      ensures instructions == old(instructions) + [i] && sessions == old(sessions)
      ensures nextInstructionId == old(nextInstructionId) + 1 && nextSessionId == old(nextSessionId)
    {
      i := Instruction(nextInstructionId, data.sessionId, data.stepOrder, data.instructionText,
                       data.durationSeconds, data.isPause);
      instructions := instructions + [i];
      nextInstructionId := nextInstructionId + 1;
    }

    /**
     * The seeding loop: adds one instruction per step, numbering them 1..n in
     * list order, each with its duration and not a pause.
     */
    method SeedInstructions(sid: int, steps: seq<(string, int)>)
      requires Valid() && ValidSteps(steps)
      modifies this
      ensures Valid()
      ensures instructions == old(instructions) + Numbered(old(nextInstructionId), sid, steps)
      ensures sessions == old(sessions) && nextSessionId == old(nextSessionId)
      ensures nextInstructionId == old(nextInstructionId) + |steps|
    {
      var k := 0;
      while k < |steps|
        invariant 0 <= k <= |steps|
        invariant Valid()
        invariant instructions == old(instructions) + Numbered(old(nextInstructionId), sid, steps[..k])
        invariant sessions == old(sessions) && nextSessionId == old(nextSessionId)
        invariant nextInstructionId == old(nextInstructionId) + k
      {
        var _ := AddInstruction(InstructionCreate(sid, k + 1, steps[k].0, Some(steps[k].1), false));
        assert Numbered(old(nextInstructionId), sid, steps[..k + 1])
            == Numbered(old(nextInstructionId), sid, steps[..k])
               + [Instruction(old(nextInstructionId) + k, sid, k + 1, steps[k].0, Some(steps[k].1), false)];
        k := k + 1;
      }
      assert steps[..k] == steps;
    }

    /** One sample session of `create_sample_data`: the session, then its numbered instructions. */
    method SeedSession(data: SessionCreate, steps: seq<(string, int)>) returns (s: Session)
      requires Valid() && ValidSessionCreate(data) && ValidSteps(steps)
      modifies this
      ensures Valid()
      ensures s == Session(old(nextSessionId), data.title, data.description, data.meditationType,
                           data.difficultyLevel, data.durationMinutes, true)
      ensures sessions == old(sessions) + [s]
      ensures instructions == old(instructions) + Numbered(old(nextInstructionId), s.id, steps)
      ensures nextSessionId == old(nextSessionId) + 1
      ensures nextInstructionId == old(nextInstructionId) + |steps|
    {
      s := CreateSession(data);
      SeedInstructions(s.id, steps);
    }

    /** Seeds three sessions in turn, each followed by its numbered instructions. */
    method SeedSessions(first: SessionCreate, firstSteps: seq<(string, int)>,
                        second: SessionCreate, secondSteps: seq<(string, int)>,
                        third: SessionCreate, thirdSteps: seq<(string, int)>)
      requires Valid()
      requires ValidSessionCreate(first) && ValidSessionCreate(second) && ValidSessionCreate(third)
      requires ValidSteps(firstSteps) && ValidSteps(secondSteps) && ValidSteps(thirdSteps)
      modifies this
      ensures Valid()
      ensures var n := old(nextSessionId);
        sessions == old(sessions)
          + [Session(n, first.title, first.description, first.meditationType, first.difficultyLevel,
                     first.durationMinutes, true)]
          + [Session(n + 1, second.title, second.description, second.meditationType, second.difficultyLevel,
                     second.durationMinutes, true)]
          + [Session(n + 2, third.title, third.description, third.meditationType, third.difficultyLevel,
                     third.durationMinutes, true)]
      ensures var n, m := old(nextSessionId), old(nextInstructionId);
        instructions == old(instructions)
          + Numbered(m, n, firstSteps)
          + Numbered(m + |firstSteps|, n + 1, secondSteps)
          + Numbered(m + |firstSteps| + |secondSteps|, n + 2, thirdSteps)
      ensures nextSessionId == old(nextSessionId) + 3
      ensures nextInstructionId == old(nextInstructionId) + |firstSteps| + |secondSteps| + |thirdSteps|
    {
      var a := SeedSession(first, firstSteps);
      var b := SeedSession(second, secondSteps);
      var c := SeedSession(third, thirdSteps);
    }

    /**
     * `create_sample_data`: three sessions (breathing, mindfulness, body
     * scan), each followed by its numbered instructions.
     */
    method CreateSampleData()
      requires Valid()
      modifies this
      ensures Valid()
      ensures var n := old(nextSessionId);
        sessions == old(sessions)
          + [Session(n, BreathingSample.title, BreathingSample.description, Breathing, Beginner, 10, true)]
          + [Session(n + 1, MindfulnessSample.title, MindfulnessSample.description, Mindfulness, Beginner, 15, true)]
          + [Session(n + 2, BodyScanSample.title, BodyScanSample.description, BodyScan, Intermediate, 20, true)]
      ensures var n, m := old(nextSessionId), old(nextInstructionId);
        instructions == old(instructions)
          + Numbered(m, n, BreathingSteps)
          + Numbered(m + |BreathingSteps|, n + 1, MindfulnessSteps)
          + Numbered(m + |BreathingSteps| + |MindfulnessSteps|, n + 2, BodyScanSteps)
      ensures nextSessionId == old(nextSessionId) + 3
      ensures nextInstructionId == old(nextInstructionId) + |BreathingSteps| + |MindfulnessSteps| + |BodyScanSteps|
    {
      SampleSessionsValid();
      BreathingStepsValid();
      MindfulnessStepsValid();
      BodyScanStepsValid();
      SeedSessions(BreathingSample, BreathingSteps, MindfulnessSample, MindfulnessSteps, BodyScanSample, BodyScanSteps);
    }
  }

  /** Every step is timed: a present, positive duration. */
  predicate AllTimed(s: seq<Instruction>) {
    forall k :: 0 <= k < |s| ==> s[k].durationSeconds.Some? && s[k].durationSeconds.value > 0
  }

  /** Numbered rows take their durations from the steps. */
  lemma NumberedTimed(firstId: int, sid: int, steps: seq<(string, int)>)
    requires forall k :: 0 <= k < |steps| ==> steps[k].1 > 0
    ensures AllTimed(Numbered(firstId, sid, steps))
  {
  }

  // ---------------------------------------------------------------------
  // Sample catalog
  // ---------------------------------------------------------------------

  const BreathingSample: SessionCreate := SessionCreate(
    "Basic Breathing Meditation",
    "A gentle introduction to meditation through focused breathing. Perfect for beginners.",
    Breathing, Beginner, 10, None)

  const BreathingSteps: seq<(string, int)> := [
      ("Welcome to this 10-minute breathing meditation. Find a comfortable seated position and close your eyes.", 30),
      ("Take a moment to notice your natural breath, without trying to change it. Simply observe.", 60),
      ("Now, begin to focus your attention on the sensation of breathing. Feel the air entering your nostrils.", 90),
      ("As you breathe in, notice the expansion in your chest and belly. Breathe naturally and comfortably.", 90),
      ("When your mind wanders to other thoughts, gently return your attention to your breath. This is normal.", 90),
      ("Continue focusing on each inhale and exhale. Let your breath be your anchor to the present moment.", 120),
      ("If you notice tension in your body, allow it to soften with each exhale.", 90),
      ("Keep bringing your attention back to your breathing whenever you notice it has wandered.", 120),
      ("Now, begin to deepen your breath slightly. Breathe in for 4 counts, hold for 2, exhale for 6.", 120),
      ("Continue this gentle rhythm. In for 4, hold for 2, out for 6.", 120),
      ("As we near the end, return to your natural breathing pattern.", 60),
      ("Take a moment to notice how you feel. Wiggle your fingers and toes, and when ready, open your eyes.", 45)
    ]

  const MindfulnessSample: SessionCreate := SessionCreate(
    "Present Moment Awareness",
    "Cultivate awareness of the present moment through mindful observation.",
    Mindfulness, Beginner, 15, None)

  const MindfulnessSteps: seq<(string, int)> := [
      ("Welcome to this mindfulness meditation. Sit comfortably and allow your eyes to close gently.", 30),
      ("Begin by taking three slow, deep breaths to settle into this moment.", 45),
      ("Now, expand your awareness to include sounds around you. Don't judge or analyze, just notice.", 90),
      ("What sounds do you hear? Perhaps birds, traffic, or the hum of appliances. Simply observe.", 90),
      ("Now bring attention to physical sensations. Notice where your body touches the chair or floor.", 90),
      ("Feel the temperature of the air on your skin. Is there any tension or comfort in your body?", 90),
      ("Notice any emotions that might be present. Give them space without trying to change them.", 90),
      ("Observe your thoughts as they come and go, like clouds passing through the sky.", 120),
      ("You are the observer of your experience, not caught up in it. Rest in this awareness.", 120),
      ("If you find yourself getting carried away by thoughts, gently return to simply observing.", 90),
      ("Notice the quality of your mind right now. Is it busy, calm, scattered, or focused?", 90),
      ("Continue resting in open awareness, welcoming whatever arises in your experience.", 120),
      ("As we conclude, take a moment to appreciate this time you've given yourself.", 60),
      ("Slowly wiggle your fingers and toes, and when you're ready, gently open your eyes.", 45)
    ]

  const BodyScanSample: SessionCreate := SessionCreate(
    "Full Body Relaxation",
    "A soothing body scan meditation to release tension and promote deep relaxation.",
    BodyScan, Intermediate, 20, None)

  const BodyScanSteps: seq<(string, int)> := [
      ("Welcome to this body scan meditation. Lie down comfortably or sit with your back straight.", 30),
      ("Close your eyes and take several deep breaths to begin relaxing your entire body.", 60),
      ("Start by bringing attention to the top of your head. Notice any sensations there.", 75),
      ("Now move to your forehead. Allow any tension to soften and release.", 75),
      ("Notice your eyes, cheeks, and jaw. Let these muscles relax completely.", 75),
      ("Bring awareness to your neck and shoulders. Breathe into any areas of tension.", 90),
      ("Move down to your arms. Feel your upper arms, elbows, forearms, and hands relaxing.", 90),
      ("Focus on your chest area. Feel it rise and fall with each natural breath.", 90),
      ("Notice your upper back and shoulder blades. Allow them to settle and release.", 90),
      ("Bring attention to your abdomen. Let it be soft and relaxed.", 75),
      ("Move to your lower back. Breathe into this area and allow it to soften.", 90),
      ("Notice your hips and pelvis. Let any tightness dissolve with each exhale.", 90),
      ("Feel your thighs, both the front and back muscles. Allow them to be heavy and relaxed.", 90),
      ("Bring awareness to your knees, then your calves and shins.", 75),
      ("Finally, notice your ankles and feet. Feel them completely relaxed.", 75),
      ("Take a moment to feel your entire body as one unified, relaxed whole.", 90),
      ("Rest in this feeling of complete relaxation for a few moments.", 120),
      ("When you're ready, slowly wiggle your fingers and toes to reawaken your body.", 60),
      ("Take your time returning to full awareness, and gently open your eyes.", 45)
    ]

  /** The three sample sessions obey the session field rules. */
  lemma SampleSessionsValid()
    ensures ValidSessionCreate(BreathingSample) && ValidSessionCreate(MindfulnessSample)
    ensures ValidSessionCreate(BodyScanSample)
  {
  }

  /** Every seeded breathing step text fits the instruction rules and its duration is non-negative. */
  lemma BreathingStepsValid()
    ensures ValidSteps(BreathingSteps)
  {
  }

  /** Every seeded breathing step has a positive duration, so it arms a timer. */
  lemma BreathingStepsTimed()
    ensures forall k :: 0 <= k < |BreathingSteps| ==> BreathingSteps[k].1 > 0
  {
  }

  /** Every seeded mindfulness step text fits the instruction rules and its duration is non-negative. */
  lemma MindfulnessStepsValid()
    ensures ValidSteps(MindfulnessSteps)
  {
  }

  /** Every seeded mindfulness step has a positive duration, so it arms a timer. */
  lemma MindfulnessStepsTimed()
    ensures forall k :: 0 <= k < |MindfulnessSteps| ==> MindfulnessSteps[k].1 > 0
  {
  }

  /** Every seeded body-scan step text fits the instruction rules and its duration is non-negative. */
  lemma BodyScanStepsValid()
    ensures ValidSteps(BodyScanSteps)
  {
  }

  /** Every seeded body-scan step has a positive duration, so it arms a timer. */
  lemma BodyScanStepsTimed()
    ensures forall k :: 0 <= k < |BodyScanSteps| ==> BodyScanSteps[k].1 > 0
  {
  }
}
