/**
 * The 16-bit touch status word of the MPR121 chip: bit e is set when
 * electrode e (0..11) is touched; bits 12..15 carry no electrode.
 * This module fixes what "bit e of a mask" and "the number of touched
 * electrodes" mean, independently of how the helper class computes them.
 */
module TouchMask {
  import opened StdInt

  /** The status word as the driver returns it. */
  type Mask = u16

  /** Number of electrodes on the chip; valid electrode numbers are 0..11. */
  const ElectrodeCount: nat := 12

  /** The highest valid electrode number. */
  const LastElectrode: u8 := 11

  /** Bit e of m, counting from the least significant bit. */
  predicate Bit(m: Mask, e: u8)
    requires e < 16
  {
    (m >> e) & 1 == 1
  }

  /** Bit e of m for an electrode numbered by a natural number. */
  predicate BitAt(m: Mask, e: nat)
    requires e < 16
  {
    Bit(m, e as u8)
  }

  /** The electrodes below n whose bit is set in m. */
  function TouchedBelow(m: Mask, n: nat): (s: set<nat>)
    requires n <= 16
    ensures forall e: nat :: e in s <==> e < n && BitAt(m, e)
  {
    set e: nat | e < n && BitAt(m, e)
  }

  /** The electrodes touched according to m. */
  function TouchedSet(m: Mask): (s: set<nat>)
    ensures forall e: nat :: e in s <==> e < ElectrodeCount && BitAt(m, e)
  {
    TouchedBelow(m, ElectrodeCount)
  }

  /** Population count of the twelve electrode bits of m. */
  function TouchCount(m: Mask): nat
  {
    |TouchedSet(m)|
  }

  /** Scanning one more electrode adds it to the count exactly when its bit is set. */
  lemma TouchedBelowStep(m: Mask, i: nat)
    requires i < 16
    ensures |TouchedBelow(m, i + 1)| == |TouchedBelow(m, i)| + (if BitAt(m, i) then 1 else 0)
  {
    var below := TouchedBelow(m, i);
    assert i !in below;
    if BitAt(m, i) {
      assert TouchedBelow(m, i + 1) == below + {i};
    } else {
      assert TouchedBelow(m, i + 1) == below;
    }
  }

  /** At most n of the electrodes below n can be touched. */
  lemma {:induction false} TouchedBelowBound(m: Mask, n: nat)
    requires n <= 16
    ensures |TouchedBelow(m, n)| <= n
  {
    if n > 0 {
      TouchedBelowBound(m, n - 1);
      TouchedBelowStep(m, n - 1);
    }
  }

  /** The touch count never exceeds the number of electrodes. */
  lemma TouchCountBound(m: Mask)
    ensures TouchCount(m) <= ElectrodeCount
  {
    TouchedBelowBound(m, ElectrodeCount);
  }

  /** With all twelve electrode bits set the count reaches twelve. */
  lemma TouchCountAllSet(m: Mask)
    requires m & 0x0FFF == 0x0FFF
    ensures TouchCount(m) == ElectrodeCount
  {
    var n := 0;
    while n < ElectrodeCount
      invariant n <= ElectrodeCount
      invariant |TouchedBelow(m, n)| == n
    {
      assert BitAt(m, n);
      TouchedBelowStep(m, n);
      n := n + 1;
    }
  }

  /** Bits 12..15 never contribute: only the low twelve bits decide which electrodes are touched. */
  lemma HighBitsIgnored(m: Mask, high: Mask)
    requires high & 0x0FFF == 0
    ensures TouchedSet(m | high) == TouchedSet(m)
    ensures TouchedSet(m & 0x0FFF) == TouchedSet(m)
  {
    forall e: nat | e < ElectrodeCount
      ensures BitAt(m | high, e) == BitAt(m, e)
      ensures BitAt(m & 0x0FFF, e) == BitAt(m, e)
    {
      HighBitsIgnoredAt(m, high, e as u8);
    }
  }

  /** One electrode's bit does not depend on bits 12..15. */
  lemma HighBitsIgnoredAt(m: Mask, high: Mask, e: u8)
    requires high & 0x0FFF == 0 && e <= LastElectrode
    ensures Bit(m | high, e) == Bit(m, e)
    ensures Bit(m & 0x0FFF, e) == Bit(m, e)
  {
  }

  /** The mask test of the source, `(m & (1 << e)) != 0`, is bit e of m. */
  lemma MaskTestIsBit(m: Mask, e: u8)
    requires e < 16
    ensures (m & (1 << e)) != 0 <==> Bit(m, e)
  {
  }
}
