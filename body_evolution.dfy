/** The body-evolution timeline of `src/app/body-evolution/page.tsx`: nine
    milestones by clean hours, which ones are reached, the next one and the
    days still missing. */
module BodyEvolution {
  import opened Common

  datatype Stage = Stage(hours: int, title: string, completed: bool)

  /** The milestone table, in hours of clean time. */
  const Milestones: seq<Stage> := [
    Stage(24, "24 Horas", false),
    Stage(48, "48 Horas", false),
    Stage(72, "72 Horas", false),
    Stage(168, "1 Semana", false),
    Stage(336, "2 Semanas", false),
    Stage(720, "1 Mês", false),
    Stage(2160, "3 Meses", false),
    Stage(4320, "6 Meses", false),
    Stage(8760, "1 Ano", false)]

  /** The thresholds rise strictly from one milestone to the next. */
  lemma {:induction false} MilestonesIncreasing(i: nat, j: nat)
    requires i < j < |Milestones|
    ensures Milestones[i].hours < Milestones[j].hours
  {
  }

  /** The `map` that marks each milestone reached at `cleanHours`. */
  function Evolution(cleanHours: real): (r: seq<Stage>)
    ensures |r| == |Milestones| == 9
    ensures forall i :: 0 <= i < |r| ==>
      r[i].hours == Milestones[i].hours && r[i].title == Milestones[i].title
      && (r[i].completed <==> cleanHours >= Milestones[i].hours as real)
  {
    seq(|Milestones|, i requires 0 <= i < |Milestones| =>
      Milestones[i].(completed := cleanHours >= Milestones[i].hours as real))
  }

  /** Reached milestones form a prefix: a reached milestone has every
      earlier one reached too. */
  lemma {:induction false} CompletedIsPrefix(cleanHours: real, i: nat, j: nat)
    requires i < j < 9
    ensures Evolution(cleanHours)[j].completed ==> Evolution(cleanHours)[i].completed
  {
    MilestonesIncreasing(i, j);
  }

  /** `evolution.filter(s => s.completed).length`. */
  function CompletedCount(stages: seq<Stage>): (n: nat)
    ensures n <= |stages|
  {
    if |stages| == 0 then 0
    else CompletedCount(stages[..|stages| - 1]) + (if stages[|stages| - 1].completed then 1 else 0)
  }

  /** `evolution.find(s => !s.completed)`, as an index. */
  function NextStage(stages: seq<Stage>): (r: Option<nat>)
    ensures r.Some? ==> r.value < |stages| && !stages[r.value].completed
    ensures r.Some? ==> forall j :: 0 <= j < r.value ==> stages[j].completed
    ensures r.None? ==> forall j :: 0 <= j < |stages| ==> stages[j].completed
  {
    if |stages| == 0 then None
    else if !stages[0].completed then Some(0)
    else
      var r := NextStage(stages[1..]);
      if r.Some? then Some(r.value + 1) else None
  }

  /** The number of milestones whose threshold `cleanHours` has reached. */
  function Reached(cleanHours: real): (k: nat)
    ensures k <= 9
    ensures forall i :: 0 <= i < 9 ==> (i < k <==> cleanHours >= Milestones[i].hours as real)
  {
    if cleanHours < 24.0 then 0
    else if cleanHours < 48.0 then 1
    else if cleanHours < 72.0 then 2
    else if cleanHours < 168.0 then 3
    else if cleanHours < 336.0 then 4
    else if cleanHours < 720.0 then 5
    else if cleanHours < 2160.0 then 6
    else if cleanHours < 4320.0 then 7
    else if cleanHours < 8760.0 then 8
    else 9
  }

  /** A list reached exactly on its first `k` entries counts `k`. */
  lemma {:induction false} CountOfPrefix(stages: seq<Stage>, k: nat)
    requires k <= |stages|
    requires forall i :: 0 <= i < |stages| ==> (stages[i].completed <==> i < k)
    ensures CompletedCount(stages) == k
  {
    if |stages| > 0 {
      var n := |stages| - 1;
      CountOfPrefix(stages[..n], if k == |stages| then n else k);
    }
  }

  /** The page's figures: `completedStages` counts the reached milestones,
      the next stage is the one at that index, and there is none exactly
      from one year (8760 hours) on. */
  lemma {:induction false} ProgressFigures(cleanHours: real)
    ensures CompletedCount(Evolution(cleanHours)) == Reached(cleanHours)
    ensures NextStage(Evolution(cleanHours)).None? <==> cleanHours >= 8760.0
    ensures NextStage(Evolution(cleanHours)).Some? ==> NextStage(Evolution(cleanHours)).value == Reached(cleanHours)
  {
    var ev := Evolution(cleanHours);
    var k := Reached(cleanHours);
    CountOfPrefix(ev, k);
    var next := NextStage(ev);
    if next.Some? {
      assert !ev[next.value].completed;
      assert k < 9 && !ev[k].completed;
    } else {
      assert ev[8].completed;
    }
  }

  /** `Math.round((completedStages / evolution.length) * 100)`. */
  function PercentComplete(completed: nat, total: nat): (p: int)
    requires 0 < total && completed <= total
    ensures 0 <= p <= 100
    ensures completed == total ==> p == 100
    ensures completed == 0 ==> p == 0
  {
    var share := completed as real / total as real;
    if completed == total then
      WholeShare(total as real);
      Round(share * 100.0)
    else
      Round(share * 100.0)
  }

  /** A count over itself is the whole. */
  lemma {:induction false} WholeShare(t: real)
    requires t > 0.0
    ensures t / t == 1.0
  {
    assert t / t * t == t;
  }

  /** `Math.ceil((stage.hours - cleanHours) / 24)`: whole days still needed. */
  function DaysRemaining(stageHours: int, cleanHours: real): (d: int)
    ensures cleanHours < stageHours as real ==> d >= 1
    ensures d as real * 24.0 >= stageHours as real - cleanHours
    ensures (d - 1) as real * 24.0 < stageHours as real - cleanHours
  {
    Ceil((stageHours as real - cleanHours) / 24.0)
  }

  /** The clean hours the page computes from the clean days. */
  function CleanHours(cleanDays: real): (h: real)
    ensures h >= 0.0 <==> cleanDays >= 0.0
  {
    cleanDays * 24.0
  }
}
