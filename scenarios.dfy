/**
 * Clients of the helper, written against its contracts only: the polling
 * cycles a sketch goes through, and what each query then answers.
 */
module Scenarios {
  import opened StdInt
  import opened TouchMask
  import opened Mpr121

  /** Two touch refreshes with m1 then m2: the previous generation is m1 and the current one m2. */
  method RefreshTwice(h: Helper, m1: Mask, m2: Mask)
    modifies h
    ensures forall c: u8 :: c <= LastElectrode ==> (h.WasTouched(c) <==> Bit(m1, c))
    ensures forall c: u8 :: c <= LastElectrode ==> (h.IsTouched(c) <==> Bit(m2, c))
    ensures forall c: u8 :: h.IsNewTouch(c) <==> c <= LastElectrode && Bit(m2, c) && !Bit(m1, c)
  {
    h.UpdateTouchData(m1);
    h.UpdateTouchData(m2);
  }

  /** Electrode 0 is touched, then electrode 1 joins it. */
  method SecondElectrodeJoins()
  {
    var h := new Helper();
    h.UpdateTouchData(0x0001);
    assert h.IsTouched(0);
    assert TouchedSet(0x0001) == {0};
    var n := h.GetNumTouches();
    assert n == 1;
    h.UpdateTouchData(0x0003);
    assert h.IsNewTouch(1) && !h.IsNewTouch(0) && !h.IsNewRelease(0);
    assert TouchedSet(0x0003) == {0, 1};
    n := h.GetNumTouches();
    assert n == 2;
  }

  /** Releasing every electrode after touching them all gives twelve falling edges and no rising one. */
  method ReleaseAll()
  {
    var h := new Helper();
    h.UpdateTouchData(0x0FFF);
    var n := h.GetNumTouches();
    TouchCountAllSet(0x0FFF);
    assert n == 12;
    h.UpdateTouchData(0x0000);
    assert forall c: u8 :: c <= LastElectrode ==> h.IsNewRelease(c) && !h.IsNewTouch(c);
  }

  /** A refresh with readings 10, 20, ..., 120 makes electrode 5 read 60. */
  method ProximityReadings()
  {
    var h := new Helper();
    var readings: seq<u16> := [10, 20, 30, 40, 50, 60, 70, 80, 90, 100, 110, 120];
    h.UpdateFilteredData(readings);
    assert h.GetFilteredData(5) == 60;
    assert h.GetFilteredData(12) == 0;
    assert !h.IsTouched(5);
  }

  /** Each single-threshold setter overwrites the other threshold with its default. */
  method ThresholdDefaults()
  {
    var h := new Helper();
    h.SetTouchThreshold(50);
    assert h.forwarded == [Thresholds(50, 20)];
    h.SetReleaseThreshold(8);
    assert h.forwarded[1] == Thresholds(40, 8);
    h.SetThresholds(12, 6);
    assert h.forwarded == [Thresholds(50, 20), Thresholds(40, 8), Thresholds(12, 6)];
  }
}
