/**
 * The beginner-friendly wrapper around the MPR121 capacitive-touch driver.
 * It caches two generations of the touch status word and one generation of
 * the twelve filtered (proximity) readings, and answers per-electrode
 * queries from that cache.  The driver itself is not modelled: what it
 * returns is passed to the refresh methods, and the threshold pairs it is
 * asked to apply are recorded in `forwarded`.
 */
module Mpr121 {
  import opened StdInt
  import opened TouchMask

  /** A (touch, release) threshold pair as passed to the driver. */
  datatype Thresholds = Thresholds(touch: u8, release: u8)

  /** Release threshold supplied by `SetTouchThreshold`. */
  const DefaultRelease: u8 := 20

  /** Touch threshold supplied by `SetReleaseThreshold`. */
  const DefaultTouch: u8 := 40

  class Helper {
    /** Touch status word read at the most recent touch refresh. */
    var currentTouchData: Mask
    /** Touch status word read at the refresh before that. */
    var lastTouchData: Mask
    /** Filtered reading of each electrode, from the most recent proximity refresh. */
    const filteredDataCache: array<u16>
    /** Every threshold pair handed to the driver, oldest first. */
    var forwarded: seq<Thresholds>

    ghost predicate Valid()
      reads this
    {
      filteredDataCache.Length == ElectrodeCount
    }

    /** The cached readings as a sequence indexed by electrode. */
    ghost function Proximity(): (p: seq<u16>)
      reads this, filteredDataCache
      requires Valid()
      ensures |p| == ElectrodeCount
    {
      filteredDataCache[..]
    }

    /** Both generations and every cached reading start at zero; nothing is sent to the driver. */
    constructor ()
      ensures Valid() && fresh(filteredDataCache)
      ensures currentTouchData == 0 && lastTouchData == 0
      ensures Proximity() == seq(ElectrodeCount, _ => 0)
      ensures forwarded == []
      ensures forall e: u8 :: !IsTouched(e) && !WasTouched(e) && GetFilteredData(e) == 0
      ensures TouchCount(currentTouchData) == 0
    {
      currentTouchData := 0;
      lastTouchData := 0;
      forwarded := [];
      var cache := new u16[ElectrodeCount];
      for i := 0 to ElectrodeCount
        invariant forall k :: 0 <= k < i ==> cache[k] == 0
      {
        cache[i] := 0;
      }
      filteredDataCache := cache;
      assert TouchedSet(0) == {};
    }

    /** Shifts the generations: the old current word becomes the last one and `touched` the current one. */
    method UpdateTouchData(touched: Mask)
      modifies this`currentTouchData, this`lastTouchData
      ensures lastTouchData == old(currentTouchData) && currentTouchData == touched
      ensures forall e: u8 :: IsTouched(e) <==> e <= LastElectrode && Bit(touched, e)
      ensures forall e: u8 :: WasTouched(e) == old(IsTouched(e))
      ensures forall e: u8 :: IsNewTouch(e) <==> IsTouched(e) && !old(IsTouched(e))
      ensures forall e: u8 :: IsNewRelease(e) <==> !IsTouched(e) && old(IsTouched(e))
      ensures filteredDataCache[..] == old(filteredDataCache[..]) && forwarded == old(forwarded)
    {
      lastTouchData := currentTouchData;
      currentTouchData := touched;
    }

    /** Refills the cache in place with the driver's reading for each electrode 0..11. */
    method UpdateFilteredData(readings: seq<u16>)
      requires Valid() && |readings| == ElectrodeCount
      modifies filteredDataCache
      ensures Proximity() == readings
      ensures forall e: u8 :: e <= LastElectrode ==> GetFilteredData(e) == readings[e]
      ensures currentTouchData == old(currentTouchData) && lastTouchData == old(lastTouchData)
      ensures forwarded == old(forwarded)
    {
      for i := 0 to ElectrodeCount
        invariant forall k :: 0 <= k < i ==> filteredDataCache[k] == readings[k]
      {
        filteredDataCache[i] := readings[i];
      }
    }

    /** Whether electrode e is touched now; the same query as `IsTouched`. */
    function GetTouchData(e: u8): (touched: bool)
      reads this
      ensures touched <==> e <= LastElectrode && Bit(currentTouchData, e)
      ensures touched == IsTouched(e)
    {
      if e > LastElectrode then false else (currentTouchData & (1 << e)) != 0
    }

    /** Whether electrode e is touched now; false for any e above 11. */
    function IsTouched(e: u8): (touched: bool)
      reads this
      ensures touched <==> e <= LastElectrode && Bit(currentTouchData, e)
    {
      if e > LastElectrode then false else (currentTouchData & (1 << e)) != 0
    }

    /** Whether electrode e was touched at the previous refresh; false for any e above 11. */
    function WasTouched(e: u8): (touched: bool)
      reads this
      ensures touched <==> e <= LastElectrode && Bit(lastTouchData, e)
    {
      if e > LastElectrode then false else (lastTouchData & (1 << e)) != 0
    }

    /** Rising edge: electrode e is touched now and was not before. */
    function IsNewTouch(e: u8): (rising: bool)
      reads this
      ensures rising <==> e <= LastElectrode && Bit(currentTouchData, e) && !Bit(lastTouchData, e)
    {
      IsTouched(e) && !WasTouched(e)
    }

    /** Falling edge: electrode e was touched before and is not now. */
    function IsNewRelease(e: u8): (falling: bool)
      reads this
      ensures falling <==> e <= LastElectrode && !Bit(currentTouchData, e) && Bit(lastTouchData, e)
    {
      !IsTouched(e) && WasTouched(e)
    }

    /** Counts the touched electrodes by scanning 0..11. */
    method GetNumTouches() returns (count: u8)
      ensures count as int == TouchCount(currentTouchData)
      ensures count as int <= ElectrodeCount
    {
      count := 0;
      for i := 0 to ElectrodeCount
        invariant count as int == |TouchedBelow(currentTouchData, i)|
        invariant count as int <= i
      {
        TouchedBelowStep(currentTouchData, i);
        if IsTouched(i as u8) {
          count := count + 1;
        }
      }
    }

    /** The cached reading of electrode e; 0 for any e above 11, without touching the cache. */
    function GetFilteredData(e: u8): (reading: u16)
      reads this, filteredDataCache
      requires Valid()
      ensures e > LastElectrode ==> reading == 0
      ensures e <= LastElectrode ==> reading == Proximity()[e]
    {
      if e > LastElectrode then 0 else filteredDataCache[e]
    }

    /** Forwards both thresholds to the driver unchanged. */
    method SetThresholds(touchThreshold: u8, releaseThreshold: u8)
      modifies this`forwarded
      ensures forwarded == old(forwarded) + [Thresholds(touchThreshold, releaseThreshold)]
    {
      forwarded := forwarded + [Thresholds(touchThreshold, releaseThreshold)];
    }

    /** Forwards `threshold` as the touch threshold and resets the release threshold to 20. */
    method SetTouchThreshold(threshold: u8)
      modifies this`forwarded
      ensures forwarded == old(forwarded) + [Thresholds(threshold, DefaultRelease)]
    {
      forwarded := forwarded + [Thresholds(threshold, DefaultRelease)];
    }

    /** Forwards `threshold` as the release threshold and resets the touch threshold to 40. */
    method SetReleaseThreshold(threshold: u8)
      modifies this`forwarded
      ensures forwarded == old(forwarded) + [Thresholds(DefaultTouch, threshold)]
    {
      forwarded := forwarded + [Thresholds(DefaultTouch, threshold)];
    }
  }

  /** Out-of-range electrodes read as untouched, never as an edge, and with a zero reading. */
  lemma OutOfRangeDefaults(h: Helper, e: u8)
    requires h.Valid() && e > LastElectrode
    ensures !h.GetTouchData(e) && !h.IsTouched(e) && !h.WasTouched(e)
    ensures !h.IsNewTouch(e) && !h.IsNewRelease(e)
    ensures h.GetFilteredData(e) == 0
  {
  }

  /** A rising and a falling edge never occur on the same electrode at once. */
  lemma EdgesExclusive(h: Helper, e: u8)
    ensures !(h.IsNewTouch(e) && h.IsNewRelease(e))
  {
  }

  /** The new touches are the electrodes touched now but not before; the new releases the reverse. */
  lemma EdgeSets(h: Helper)
    ensures forall e: nat :: e < ElectrodeCount ==>
      (h.IsNewTouch(e as u8) <==> e in TouchedSet(h.currentTouchData) - TouchedSet(h.lastTouchData))
    ensures forall e: nat :: e < ElectrodeCount ==>
      (h.IsNewRelease(e as u8) <==> e in TouchedSet(h.lastTouchData) - TouchedSet(h.currentTouchData))
  {
  }
}
