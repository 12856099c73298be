/** The creativity label of a request and the sampling temperature it selects. */
module Creativity {

  /** The labels that select a temperature, each with the temperature it selects. */
  const Levels: map<string, real> :=
    map["optimal" := 0.7, "low" := 0.2, "medium" := 0.5, "high" := 0.9, "max" := 1.0]

  /** The temperature for a creativity label. It is a total lookup: a label the
      table does not know falls back to 0, and only such a label yields 0. */
  function Temperature(creativity: string): (t: real)
    ensures 0.0 <= t <= 1.0
    ensures t == 0.0 <==> creativity !in Levels
  {
    if creativity == "optimal" then 0.7
    else if creativity == "low" then 0.2
    else if creativity == "medium" then 0.5
    else if creativity == "high" then 0.9
    else if creativity == "max" then 1.0
    else 0.0
  }

  /** `Temperature` agrees with the table `Levels` on every label. */
  lemma TemperatureMatchesLevels(creativity: string)
    ensures creativity in Levels ==> Temperature(creativity) == Levels[creativity]
    ensures creativity !in Levels ==> Temperature(creativity) == 0.0
  {
  }

  /** A label the table does not know, such as "extreme", silently degrades to 0. */
  lemma UnknownLabelDegradesToZero()
    ensures Temperature("extreme") == 0.0
    ensures Temperature("") == 0.0
    ensures Temperature("High") == 0.0
  {
  }
}
