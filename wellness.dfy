/**
 * pages/WellnessPage.tsx: resilience points and the "Wellness Warrior"
 * badge, the breathing exercise's phase and progress tick, and the rotating
 * quote.
 */
module Wellness {
  import opened Wrappers
  import opened Types
  import opened Records
  import opened Session

  const Warrior := "Wellness Warrior"
  const WarriorThreshold := 500

  /** How many times `x` occurs in `s`. */
  function Count(s: seq<string>, x: string): nat
  {
    if s == [] then 0 else (if s[0] == x then 1 else 0) + Count(s[1..], x)
  }

  lemma {:induction false} CountAppend(s: seq<string>, y: string, x: string)
    ensures Count(s + [y], x) == Count(s, x) + (if y == x then 1 else 0)
  {
    if s == [] {
      assert s + [y] == [y];
    } else {
      assert (s + [y])[1..] == s[1..] + [y];
      CountAppend(s[1..], y, x);
    }
  }

  lemma {:induction false} CountPositive(s: seq<string>, x: string)
    ensures Count(s, x) > 0 <==> x in s
  {
    if s != [] {
      CountPositive(s[1..], x);
      assert x in s <==> s[0] == x || x in s[1..];
    }
  }

  /**
   * `completeSession`'s new profile: `amount` more points, the badges copied
   * in order, and the warrior badge added when the new total reaches the
   * threshold and the badge is not there yet. Nothing else changes.
   */
  function Award(u: Profile, amount: int): (r: Profile)
    ensures r.points == u.points + amount
    ensures r == u.(points := r.points, badges := r.badges)
    ensures |r.badges| >= |u.badges| && r.badges[..|u.badges|] == u.badges
    ensures Warrior in r.badges <==> Warrior in u.badges || r.points >= WarriorThreshold
    ensures forall b :: b in r.badges ==> b in u.badges || b == Warrior
    ensures |r.badges| == |u.badges| + (if Warrior !in u.badges && r.points >= WarriorThreshold then 1 else 0)
  {
    var points := u.points + amount;
    var badges := if points >= WarriorThreshold && Warrior !in u.badges then u.badges + [Warrior] else u.badges;
    u.(points := points, badges := badges)
  }

  /** The warrior badge is added at most once: an award never makes it occur twice. */
  lemma AwardNeverDuplicates(u: Profile, amount: int)
    ensures Count(Award(u, amount).badges, Warrior) ==
      if Warrior in u.badges then Count(u.badges, Warrior)
      else if u.points + amount >= WarriorThreshold then 1 else 0
  {
    var r := Award(u, amount);
    CountPositive(u.badges, Warrior);
    if Warrior !in u.badges && u.points + amount >= WarriorThreshold {
      CountAppend(u.badges, Warrior, Warrior);
    }
  }

  function Sum(amounts: seq<nat>): nat
  {
    if amounts == [] then 0 else amounts[0] + Sum(amounts[1..])
  }

  /** A run of completed sessions, first to last. */
  function AwardAll(u: Profile, amounts: seq<nat>): Profile
    decreases |amounts|
  {
    if amounts == [] then u else AwardAll(Award(u, amounts[0]), amounts[1..])
  }

  /**
   * Over any run of non-negative awards, starting from a profile that holds
   * the badge if it is past the threshold, the points are the start plus the
   * sum, the badge is held exactly when it was held before or the total
   * reached the threshold, and it never occurs twice.
   */
  lemma {:induction false} AwardAllTotals(u: Profile, amounts: seq<nat>)
    requires Count(u.badges, Warrior) <= 1
    requires u.points >= WarriorThreshold ==> Warrior in u.badges
    ensures AwardAll(u, amounts).points == u.points + Sum(amounts)
    ensures AwardAll(u, amounts).points >= u.points
    ensures Warrior in AwardAll(u, amounts).badges <==> Warrior in u.badges || AwardAll(u, amounts).points >= WarriorThreshold
    ensures Count(AwardAll(u, amounts).badges, Warrior) <= 1
    ensures AwardAll(u, amounts) == u.(points := AwardAll(u, amounts).points, badges := AwardAll(u, amounts).badges)
    decreases |amounts|
  {
    if amounts != [] {
      var u1 := Award(u, amounts[0]);
      AwardNeverDuplicates(u, amounts[0]);
      AwardAllTotals(u1, amounts[1..]);
      assert AwardAll(u, amounts) == AwardAll(u1, amounts[1..]);
      var last := AwardAll(u1, amounts[1..]);
      assert last.points >= u1.points;
      assert Warrior in u1.badges <==> Warrior in u.badges || u1.points >= WarriorThreshold;
      assert Warrior in last.badges <==> Warrior in u1.badges || last.points >= WarriorThreshold;
    }
  }

  /** Awards of 480, 30 and 20 from zero points cross the threshold once, at the second award, and yield one badge. */
  lemma ThresholdCrossedOnce(u: Profile)
    requires u.points == 0 && u.badges == []
    ensures AwardAll(u, [480, 30, 20]).points == 530
    ensures Count(AwardAll(u, [480, 30, 20]).badges, Warrior) == 1
    ensures Warrior !in AwardAll(u, [480]).badges && Warrior in AwardAll(u, [480, 30]).badges
  {
    var amounts: seq<nat> := [480, 30, 20];
    assert Sum(amounts) == 530 by {
      assert amounts[1..] == [30, 20] && amounts[1..][1..] == [20] && amounts[1..][1..][1..] == [];
    }
    AwardAllTotals(u, amounts);
    AwardAllTotals(u, [480]);
    AwardAllTotals(u, [480, 30]);
    assert Sum([480]) == 480 by { assert [480][1..] == []; }
    assert Sum([480, 30]) == 510 by { assert [480, 30][1..] == [30] && [30][1..] == []; }
    CountPositive(AwardAll(u, amounts).badges, Warrior);
  }

  /** The three moods of the daily check. */
  datatype Mood = Low | Okay | Better

  /** The activities whose buttons call `completeSession`. */
  datatype Activity = BreathingPractice | MoodCheck(mood: Mood) | YogaFlow | VagalNerveRegulation

  /** The points each activity awards. */
  function AwardFor(a: Activity): (n: nat)
    ensures 5 <= n <= 50
    ensures a.MoodCheck? ==> n == 5
  {
    match a
    case BreathingPractice => 10
    case MoodCheck(_) => 5
    case YogaFlow => 50
    case VagalNerveRegulation => 30
  }

  /** The breathing phases. */
  datatype Phase = In | Hold | Out | Pause

  /** The phase successor of the breathing timer. */
  function NextPhase(p: Phase): (r: Phase)
    ensures r != p
  {
    match p
    case In => Hold
    case Hold => Out
    case Out => Pause
    case Pause => In
  }

  /** The order the exercise walks through, starting from the first render's phase. */
  const PhaseOrder: seq<Phase> := [In, Hold, Out, Pause]

  /**
   * Each step moves to the next phase of In, Hold, Out, Pause and wraps
   * from Pause to In, so four steps bring every phase back to itself.
   */
  lemma PhaseCycle(p: Phase)
    ensures forall i :: 0 <= i < |PhaseOrder| ==> NextPhase(PhaseOrder[i]) == PhaseOrder[(i + 1) % |PhaseOrder|]
    ensures NextPhase(In) == Hold && NextPhase(Hold) == Out && NextPhase(Out) == Pause && NextPhase(Pause) == In
    ensures NextPhase(NextPhase(NextPhase(NextPhase(p)))) == p
  {
  }

  /** The breathing exercise's state: progress percentage and phase. */
  datatype Breath = Breath(progress: int, phase: Phase)

  /** One 40 ms tick: progress goes up by one; a full circle resets it and advances the phase. */
  function Tick(b: Breath): (r: Breath)
    ensures 0 <= b.progress <= 100 ==> 0 <= r.progress <= 100
    ensures r.phase != b.phase <==> b.progress >= 100
    ensures r.phase != b.phase ==> r == Breath(0, NextPhase(b.phase))
    ensures r.phase == b.phase ==> r.progress == b.progress + 1
  {
    if b.progress >= 100 then Breath(0, NextPhase(b.phase)) else Breath(b.progress + 1, b.phase)
  }

  /** `n` ticks in a row. */
  function Ticks(b: Breath, n: nat): Breath
  {
    if n == 0 then b else Tick(Ticks(b, n - 1))
  }

  lemma {:induction false} TicksFromZero(ph: Phase, k: nat)
    requires k <= 100
    ensures Ticks(Breath(0, ph), k) == Breath(k, ph)
  {
    if k > 0 {
      TicksFromZero(ph, k - 1);
    }
  }

  /** Each phase lasts 101 ticks: from zero progress, 101 ticks reach the next phase at zero progress. */
  lemma PhaseLasts101Ticks(ph: Phase)
    ensures Ticks(Breath(0, ph), 101) == Breath(0, NextPhase(ph))
    ensures forall k :: 0 <= k <= 100 ==> Ticks(Breath(0, ph), k).phase == ph
  {
    TicksFromZero(ph, 100);
    forall k | 0 <= k <= 100 ensures Ticks(Breath(0, ph), k).phase == ph {
      TicksFromZero(ph, k);
    }
  }

  const Quotes: seq<string> := [
    "Healing is not linear; give yourself grace.",
    "Your resilience is your greatest strength.",
    "In the middle of every difficulty lies opportunity.",
    "Softness is not weakness. It takes courage to stay delicate."
  ]

  /** The quote timer's `(prev + 1) % QUOTES.length`. */
  function NextQuote(i: nat): (r: nat)
    ensures r < |Quotes|
    ensures i + 1 < |Quotes| ==> r == i + 1
    ensures i + 1 == |Quotes| ==> r == 0
  {
    (i + 1) % |Quotes|
  }

  /** The wellness screen's state. */
  class WellnessScreen {
    var breath: Breath
    var mood: Option<Mood>
    var quoteIdx: nat
    const app: App

    predicate Valid()
      reads this
    {
      0 <= breath.progress <= 100 && quoteIdx < |Quotes|
    }

    constructor (app: App)
      ensures this.app == app && breath == Breath(0, In) && mood == None && quoteIdx == 0 && Valid()
    {
      this.app := app;
      breath := Breath(0, In);
      mood := None;
      quoteIdx := 0;
    }

    /** One tick of the breathing timer. */
    method BreathTick()
      requires Valid()
      modifies this`breath
      ensures Valid() && breath == Tick(old(breath))
    {
      breath := Tick(breath);
    }

    /** One tick of the quote timer. */
    method QuoteTick()
      requires Valid()
      modifies this`quoteIdx
      ensures Valid() && quoteIdx == NextQuote(old(quoteIdx))
    {
      quoteIdx := NextQuote(quoteIdx);
    }

    /** The quote on display. */
    function CurrentQuote(): (q: string)
      requires Valid()
      reads this
      ensures q in Quotes
    {
      Quotes[quoteIdx]
    }

    /**
     * An activity button: a mood check records the mood, then the awarded
     * profile goes to the shell's `handleUpdateProfile`.
     */
    method CompleteSession(a: Activity)
      requires app.user.Some?
      modifies this`mood, app, app.store
      ensures app.user == Some(Award(old(app.user.value), AwardFor(a)))
      ensures app.user.value.points > old(app.user.value.points)
      ensures app.store.entries == old(app.store.entries)[UserKey := ProfileDoc(app.user.value)]
      ensures mood == if a.MoodCheck? then Some(a.mood) else old(mood)
      ensures breath == old(breath) && quoteIdx == old(quoteIdx)
      ensures app.activeTab == old(app.activeTab) && app.theme == old(app.theme)
      ensures app.sidebarOpen == old(app.sidebarOpen) && app.profileMenuOpen == old(app.profileMenuOpen)
    {
      if a.MoodCheck? {
        mood := Some(a.mood);
      }
      app.UpdateProfile(Award(app.user.value, AwardFor(a)));
    }
  }
}
