/** `struct timeval` arithmetic as `isTimeOut` does it. */
module Timer {

  const SEND_MSG_INTERVAL: nat := 200
  const SHORT_TIMEOUT: nat := 4000
  const LONG_TIMEOUT: nat := 6000

  datatype Time = Time(sec: int, usec: int) {
    predicate Valid() {
      0 <= sec && 0 <= usec < 1_000_000
    }

    function Micros(): int {
      sec * 1_000_000 + usec
    }
  }

  /** Integer division of C, which truncates toward zero. */
  function TruncDiv(a: int, b: int): int
    requires b > 0
  {
    if a >= 0 then a / b else -((-a) / b)
  }

  predicate IsTimeOut(curr: Time, last: Time, millisecond: nat) {
    (curr.sec - last.sec) * 1000 + TruncDiv(curr.usec - last.usec, 1000) >= millisecond
  }

  /** The test never fires late and fires less than one millisecond early; between the
      two it fires exactly when the microsecond field has wrapped. */
  lemma TimeOutIsWithinAMillisecond(curr: Time, last: Time, ms: nat)
    requires curr.Valid() && last.Valid()
    ensures curr.Micros() - last.Micros() >= 1000 * ms ==> IsTimeOut(curr, last, ms)
    ensures IsTimeOut(curr, last, ms) ==> curr.Micros() - last.Micros() > 1000 * ms - 1000
    ensures IsTimeOut(curr, last, ms) <==>
              || curr.Micros() - last.Micros() >= 1000 * ms
              || (curr.usec < last.usec && curr.Micros() - last.Micros() > 1000 * ms - 1000)
  {
    var s, d := curr.sec - last.sec, curr.usec - last.usec;
    assert curr.Micros() - last.Micros() == s * 1_000_000 + d;
    if d >= 0 {
      var q := d / 1000;
      assert 1000 * q <= d < 1000 * q + 1000;
    } else {
      var q := (-d) / 1000;
      assert 1000 * q <= -d < 1000 * q + 1000;
    }
  }
}
