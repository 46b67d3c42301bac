/** `pick_device`: choose the playback target from the service's ordered
    device list. */
module DeviceSelector {
  import opened Wrappers
  import opened Text
  import opened Spotify

  /** The target device name the bot is configured with when none is given. */
  const DefaultDeviceName := "spotatui"

  /** What `None.lower()` raises. */
  const NoneHasNoLower := Error("AttributeError", "'NoneType' object has no attribute 'lower'")

  /** `d.get("name", "").lower()`: a missing name reads as empty, a `null`
      name raises. */
  function LoweredName(d: Device): (r: Result<string, Error>)
    ensures r.Failure? <==> d.name.Null?
    ensures r.Failure? ==> r.error == NoneHasNoLower
    ensures d.name.Str? ==> r == Success(Lower(d.name.text))
    ensures d.name.Absent? ==> r == Success([])
  {
    match Get(d.name, "")
    case None => Failure(NoneHasNoLower)
    case Some(n) => Success(Lower(n))
  }

  /** `d.get("name", "").lower() == target.lower()` holds. */
  predicate NameMatches(d: Device, target: string)
    ensures NameMatches(d, target) ==> !d.name.Null?
  {
    LoweredName(d) == Success(Lower(target))
  }

  /** The name scan returns or raises at this device. */
  predicate StopsNameScan(d: Device, target: string) {
    d.name.Null? || NameMatches(d, target)
  }

  /** Index of the first device at which the name scan returns or raises. */
  function NameScanStop(ds: seq<Device>, target: string): (r: Option<nat>)
    ensures r.Some? ==> r.value < |ds| && StopsNameScan(ds[r.value], target)
    ensures r.Some? ==> forall j :: 0 <= j < r.value ==> !StopsNameScan(ds[j], target)
    ensures r.None? ==> forall j :: 0 <= j < |ds| ==> !StopsNameScan(ds[j], target)
  {
    if ds == [] then None
    else if StopsNameScan(ds[0], target) then Some(0)
    else match NameScanStop(ds[1..], target)
      case None => None
      case Some(k) => Some(k + 1)
  }

  /** Index of the first active device. */
  function FirstActive(ds: seq<Device>): (r: Option<nat>)
    ensures r.Some? ==> r.value < |ds| && ds[r.value].isActive
    ensures r.Some? ==> forall j :: 0 <= j < r.value ==> !ds[j].isActive
    ensures r.None? ==> forall j :: 0 <= j < |ds| ==> !ds[j].isActive
  {
    if ds == [] then None
    else if ds[0].isActive then Some(0)
    else match FirstActive(ds[1..])
      case None => None
      case Some(k) => Some(k + 1)
  }

  /** The device chosen: by name, else the first active one, else the first;
      the name scan raises at a `null` name it reaches before a match. */
  function PickedDevice(ds: seq<Device>, target: string): (r: Result<Option<Device>, Error>)
    ensures r.Failure? ==> r.error == NoneHasNoLower
    ensures r.Success? && r.value.Some? ==> r.value.value in ds
  {
    if ds == [] then Success(None)
    else match NameScanStop(ds, target)
      case Some(i) =>
        if ds[i].name.Null? then Failure(NoneHasNoLower) else Success(Some(ds[i]))
      case None =>
        match FirstActive(ds)
        case Some(i) => Success(Some(ds[i]))
        case None => Success(Some(ds[0]))
  }

  /** The two scans of the source, each returning at the first hit. */
  method PickDevice(ds: seq<Device>, target: string) returns (r: Result<Option<Device>, Error>)
    ensures r == PickedDevice(ds, target)
  {
    if ds == [] {
      return Success(None);
    }
    var i := 0;
    while i < |ds|
      invariant 0 <= i <= |ds|
      invariant forall j :: 0 <= j < i ==> !StopsNameScan(ds[j], target)
    {
      var name := LoweredName(ds[i]);
      if name.Failure? {
        return Failure(name.error);
      }
      if name.value == Lower(target) {
        return Success(Some(ds[i]));
      }
      i := i + 1;
    }
    i := 0;
    while i < |ds|
      invariant 0 <= i <= |ds|
      invariant forall j :: 0 <= j < i ==> !ds[j].isActive
    {
      if ds[i].isActive {
        return Success(Some(ds[i]));
      }
      i := i + 1;
    }
    return Success(Some(ds[0]));
  }

  /** No device is chosen exactly when the list is empty, and a chosen device
      is always one the service listed. */
  lemma PickedNoneIffEmpty(ds: seq<Device>, target: string)
    ensures PickedDevice(ds, target) == Success(None) <==> ds == []
    ensures PickedDevice(ds, target).Success? && PickedDevice(ds, target).value.Some? ==>
      PickedDevice(ds, target).value.value in ds
  {
  }

  /** The selection raises exactly when a device with a `null` name comes
      before every name match. */
  lemma PickedFailsOnNullName(ds: seq<Device>, target: string)
    ensures PickedDevice(ds, target).Failure? <==>
      exists i :: 0 <= i < |ds| && ds[i].name.Null? &&
        forall j :: 0 <= j < i ==> !StopsNameScan(ds[j], target)
  {
    if PickedDevice(ds, target).Failure? {
      var i := NameScanStop(ds, target).value;
      assert ds[i].name.Null?;
    }
    if exists i :: 0 <= i < |ds| && ds[i].name.Null? && forall j :: 0 <= j < i ==> !StopsNameScan(ds[j], target) {
      var i :| 0 <= i < |ds| && ds[i].name.Null? && forall j :: 0 <= j < i ==> !StopsNameScan(ds[j], target);
      var k := NameScanStop(ds, target);
      assert k == Some(i);
    }
  }

  /** Tier 1: the first device whose name matches case-insensitively, when
      no `null` name comes before it. */
  lemma PickedByName(ds: seq<Device>, target: string, i: nat)
    requires i < |ds| && NameMatches(ds[i], target)
    requires forall j :: 0 <= j < i ==> !StopsNameScan(ds[j], target)
    ensures PickedDevice(ds, target) == Success(Some(ds[i]))
  {
    var k := NameScanStop(ds, target);
    assert k == Some(i);
  }

  /** Tier 2: with no name match and no `null` name, the first active device. */
  lemma PickedActive(ds: seq<Device>, target: string, i: nat)
    requires forall j :: 0 <= j < |ds| ==> !StopsNameScan(ds[j], target)
    requires i < |ds| && ds[i].isActive
    requires forall j :: 0 <= j < i ==> !ds[j].isActive
    ensures PickedDevice(ds, target) == Success(Some(ds[i]))
  {
    var k := FirstActive(ds);
    assert k == Some(i);
  }

  /** Tier 3: with no name match, no `null` name and no active device, the
      first device. */
  lemma PickedFirst(ds: seq<Device>, target: string)
    requires ds != []
    requires forall j :: 0 <= j < |ds| ==> !StopsNameScan(ds[j], target)
    requires forall j :: 0 <= j < |ds| ==> !ds[j].isActive
    ensures PickedDevice(ds, target) == Success(Some(ds[0]))
  {
  }

  /** The configured name is compared case-insensitively: targets that differ
      only in ASCII case pick the same device. */
  lemma PickedIgnoresTargetCase(ds: seq<Device>, t1: string, t2: string)
    requires Lower(t1) == Lower(t2)
    ensures PickedDevice(ds, t1) == PickedDevice(ds, t2)
  {
    assert forall d :: StopsNameScan(d, t1) == StopsNameScan(d, t2);
    var a, b := NameScanStop(ds, t1), NameScanStop(ds, t2);
    assert a == b;
  }

  /** A name match beats an active device; without a match the active device
      wins; with neither the first device is taken; none from an empty list;
      a `null` name ahead of the match raises. */
  lemma PickedExamples()
    ensures var kitchen := Device(Str("k"), Str("Kitchen"), Absent, false);
      var office := Device(Str("o"), Str("Office"), Absent, true);
      var unnamed := Device(Str("u"), Null, Absent, false);
      && PickedDevice([kitchen, office], "office") == Success(Some(office))
      && PickedDevice([kitchen, office], "Z") == Success(Some(office))
      && PickedDevice([kitchen], "Z") == Success(Some(kitchen))
      && PickedDevice([], "Z") == Success(None)
      && PickedDevice([unnamed, office], "office") == Failure(NoneHasNoLower)
  {
    var kitchen := Device(Str("k"), Str("Kitchen"), Absent, false);
    var office := Device(Str("o"), Str("Office"), Absent, true);
    assert !NameMatches(kitchen, "office") by { assert |Lower("Kitchen")| != |Lower("office")|; }
    assert NameMatches(office, "office") by {
      assert Lower("Office") == Lower("office") by {
        assert LowerChar('O') == 'o';
        forall j | 0 <= j < 6 ensures Lower("Office")[j] == Lower("office")[j] {
        }
      }
    }
    PickedByName([kitchen, office], "office", 1);
    assert !NameMatches(kitchen, "Z") by { assert |Lower("Kitchen")| != |Lower("Z")|; }
    assert !NameMatches(office, "Z") by { assert |Lower("Office")| != |Lower("Z")|; }
    PickedActive([kitchen, office], "Z", 1);
    PickedFirst([kitchen], "Z");
  }
}
