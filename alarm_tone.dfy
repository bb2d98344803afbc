/**
 * The tone of the web monitor's alarm (agora_web_quickstart/src/main.js,
 * playAlarm): a square wave that starts at 800 Hz; every 400 ms the interval
 * callback sets 600 Hz or 900 Hz, chosen by the closure flag `isHigh`, and
 * flips the flag. Time itself is not modelled: a tick is one run of the
 * interval callback.
 */
module AlarmTone {
  const StartFrequency: int := 800
  const LowFrequency: int := 600
  const HighFrequency: int := 900

  /** The oscillator frequency together with the callback's `isHigh` flag. */
  datatype Tone = Tone(frequency: int, isHigh: bool)

  /** What playAlarm sets up: 800 Hz, `isHigh` true. */
  const Initial: Tone := Tone(StartFrequency, true)

  /** One run of the interval callback on a live oscillator. */
  function Switch(t: Tone): (r: Tone)
    ensures r.isHigh != t.isHigh
    ensures r.frequency == LowFrequency || r.frequency == HighFrequency
  {
    Tone(if t.isHigh then LowFrequency else HighFrequency, !t.isHigh)
  }

  /** The tone after `k` ticks of the interval started by playAlarm. */
  function AfterTicks(k: nat): Tone {
    if k == 0 then Initial else Switch(AfterTicks(k - 1))
  }

  /** After k >= 1 ticks the tone is 600 Hz when k is odd and 900 Hz when k is even. */
  lemma {:induction false} AfterTicksParity(k: nat)
    ensures AfterTicks(k).isHigh <==> k % 2 == 0
    ensures AfterTicks(k).frequency ==
      if k == 0 then StartFrequency else if k % 2 == 1 then LowFrequency else HighFrequency
  {
    if k > 0 {
      AfterTicksParity(k - 1);
    }
  }

  /** From the first tick on, consecutive ticks alternate between the two frequencies. */
  lemma AfterTicksAlternate(k: nat)
    requires k >= 1
    ensures AfterTicks(k + 1).frequency != AfterTicks(k).frequency
    ensures AfterTicks(k + 2) == AfterTicks(k)
  {
    AfterTicksParity(k);
    AfterTicksParity(k + 1);
    AfterTicksParity(k + 2);
  }
}
