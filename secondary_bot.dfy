/** The secondary persona (bots/secondary_bot.py): it answers only some
    messages, gated by a probability read once from the environment, and
    mentions that probability in its introduction. */
module SecondaryBot {
  import opened Wrappers
  import opened Text
  import opened RandomDelay

  const DefaultResponseProbability: real := 0.7

  /** The probability set at construction: `RESPONSE_PROBABILITY` when set
      (as a number), 0.7 otherwise. */
  function ResponseProbability(fromEnvironment: Option<real>): (p: real)
    ensures fromEnvironment.None? ==> p == 0.7
    ensures fromEnvironment.Some? ==> p == fromEnvironment.value
  {
    fromEnvironment.GetOr(DefaultResponseProbability)
  }

  /** `should_respond_to_message` for the draw `r` of `random()`: no answer
      when the draw exceeds the probability. */
  function ShouldRespond(responseProbability: real, r: UnitDraw): (answer: bool)
    ensures answer <==> r <= responseProbability
    ensures responseProbability >= 1.0 ==> answer
    ensures responseProbability < 0.0 ==> !answer
  {
    if r > responseProbability then false else true
  }

  /** `get_additional_introduction_info`: the probability as a whole
      percentage (truncated). */
  function AdditionalIntroductionInfo(responseProbability: real): (line: string)
    ensures StartsWith(line, "応答確率: ") && EndsWith(line, "%")
    ensures exists k: int :: line == "応答確率: " + IntToString(k) + "%"
                            && (0.0 <= responseProbability ==>
                                  k as real <= responseProbability * 100.0 < k as real + 1.0)
                            && (responseProbability < 0.0 ==>
                                  k as real - 1.0 < responseProbability * 100.0 <= k as real)
    ensures 0.0 <= responseProbability ==>
              exists n: nat :: line == "応答確率: " + NatToString(n) + "%"
                              && n as real <= responseProbability * 100.0 < n as real + 1.0
  {
    var k := Truncate(responseProbability * 100.0);
    var line := "応答確率: " + IntToString(k) + "%";
    assert line[..6] == "応答確率: ";
    assert 0.0 <= responseProbability ==> line == "応答確率: " + NatToString(k) + "%";
    line
  }

  /** With the default probability the line reads "応答確率: 70%". */
  lemma DefaultIntroductionInfo()
    ensures AdditionalIntroductionInfo(ResponseProbability(None)) == "応答確率: 70%"
  {
    assert Truncate(0.7 * 100.0) == 70;
    assert NatToString(7) == "7";
    assert NatToString(70) == "70";
  }
}
