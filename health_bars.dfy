/** The message under each health bar of
    `src/components/custom/health-bars.tsx`. The component renders five
    independent conditional messages; the model keeps them independent and
    proves that at most one ever shows. */
module HealthBars {
  import opened Recovery

  datatype Band = Starting | Visible | Great | AlmostThere | Complete

  /** The text each band shows. */
  function Message(b: Band): string {
    match b
    case Starting => "Começando a recuperar..."
    case Visible => "Progresso visível!"
    case Great => "Ótima evolução!"
    case AlmostThere => "Quase lá!"
    case Complete => "Recuperação completa! 🎉"
  }

  /** Each of the five conditions on its own, in render order. */
  predicate Shows(b: Band, value: real) {
    match b
    case Starting => value < 25.0
    case Visible => value >= 25.0 && value < 50.0
    case Great => value >= 50.0 && value < 75.0
    case AlmostThere => value >= 75.0 && value < 100.0
    case Complete => value == 100.0
  }

  const Bands: seq<Band> := [Starting, Visible, Great, AlmostThere, Complete]

  /** The messages rendered for a value: every band whose condition holds,
      in render order. */
  function Messages(value: real): (r: seq<string>)
    ensures |r| <= 1
    ensures |r| == 1 <==> value <= 100.0
    ensures forall b :: Shows(b, value) ==> r == [Message(b)]
  {
    var shown := seq(5, i requires 0 <= i < 5 => if Shows(Bands[i], value) then [Message(Bands[i])] else []);
    shown[0] + shown[1] + shown[2] + shown[3] + shown[4]
  }

  /** The band of a value, for a value any band accepts. */
  function BandOf(value: real): (b: Band)
    requires value <= 100.0
    ensures Shows(b, value)
    ensures forall c :: Shows(c, value) ==> c == b
  {
    if value < 25.0 then Starting
    else if value < 50.0 then Visible
    else if value < 75.0 then Great
    else if value < 100.0 then AlmostThere
    else Complete
  }

  /** The boundaries belong to the higher band, negative values start out,
      and only exactly 100 is complete. */
  lemma {:induction false} BandBoundaries()
    ensures BandOf(25.0) == Visible && BandOf(50.0) == Great && BandOf(75.0) == AlmostThere
    ensures BandOf(-10.0) == Starting && BandOf(99.9) == AlmostThere && BandOf(100.0) == Complete
  {
  }

  /** Every bar the health curves produce shows exactly one message. */
  lemma {:induction false} EveryMetricHasOneMessage(days: real, i: nat)
    requires i < 6
    ensures |Messages(CalculateHealthMetrics(days)[i].value)| == 1
  {
  }
}
