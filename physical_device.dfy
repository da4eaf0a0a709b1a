/** GPU selection and capability queries (`PhysicalDevice`). What the driver
    reports about a physical device and the window surface is a
    `DeviceInfo` value; the class keeps the selected device. */
module PhysicalDevices {
  import opened Wrappers
  import opened Vulkan
  import Sequences

  /** `deviceExtensions`: the device extensions an adapter must offer. */
  const DEVICE_EXTENSIONS: seq<string> := ["VK_KHR_swapchain"]

  /** `VK_MAX_MEMORY_TYPES`, the size of the driver's memory-type array */
  const MAX_MEMORY_TYPES: nat := 32

  /** One queue family: whether `queueFlags` has `VK_QUEUE_GRAPHICS_BIT`, and
      whether the family can present to the engine's surface. */
  datatype QueueFamilyProperties = QueueFamilyProperties(graphics: bool, presentSupport: bool)

  /** `QueueFamilyIndices`: two optional family indices. */
  datatype QueueFamilyIndices = QueueFamilyIndices(graphicsFamily: Option<nat>, presentFamily: Option<nat>) {
    predicate IsComplete() {
      graphicsFamily.Some? && presentFamily.Some?
    }
  }

  datatype SwapChainSupportDetails = SwapChainSupportDetails(
    capabilities: SurfaceCapabilities,
    formats: seq<SurfaceFormat>,
    presentModes: seq<PresentMode>)

  /** What the driver reports about one physical device and the surface;
      a format absent from `formatProperties` has no features. */
  datatype DeviceInfo = DeviceInfo(
    handle: Handle,
    queueFamilies: seq<QueueFamilyProperties>,
    extensions: seq<string>,
    surface: SwapChainSupportDetails,
    samplerAnisotropy: bool,
    memoryTypes: seq<MemoryType>,
    formatProperties: map<Format, FormatProperties>)

  function FormatPropertiesOf(info: DeviceInfo, format: Format): FormatProperties {
    if format in info.formatProperties then info.formatProperties[format] else FormatProperties({}, {})
  }

  // ---------------------------------------------------------------------
  // findMemoryType

  /** Memory type `i` is allowed by the filter bit mask and has every
      requested property. */
  predicate SuitableMemoryType(types: seq<MemoryType>, typeFilter: U32, properties: set<MemoryProperty>, i: nat) {
    i < |types| && BitSet(typeFilter, i) && properties <= types[i].propertyFlags
  }

  function FindMemoryTypeFrom(types: seq<MemoryType>, typeFilter: U32, properties: set<MemoryProperty>, i: nat): (r: Option<nat>)
    requires i <= |types|
    ensures r.Some? ==> i <= r.value && SuitableMemoryType(types, typeFilter, properties, r.value)
    ensures r.Some? ==> forall j :: i <= j < r.value ==> !SuitableMemoryType(types, typeFilter, properties, j)
    ensures r.None? ==> forall j :: i <= j < |types| ==> !SuitableMemoryType(types, typeFilter, properties, j)
    decreases |types| - i
  {
    if i == |types| then None
    else if SuitableMemoryType(types, typeFilter, properties, i) then Some(i)
    else FindMemoryTypeFrom(types, typeFilter, properties, i + 1)
  }

  /** The least index allowed by `typeFilter` whose property flags contain
      `properties`; failing that, the engine throws. */
  function FindMemoryType(types: seq<MemoryType>, typeFilter: U32, properties: set<MemoryProperty>): (r: Result<nat>)
    requires |types| <= MAX_MEMORY_TYPES
    ensures r.Ok? ==> SuitableMemoryType(types, typeFilter, properties, r.value)
    ensures r.Ok? ==> forall j :: 0 <= j < r.value ==> !SuitableMemoryType(types, typeFilter, properties, j)
    ensures r.Err? <==> forall j :: 0 <= j < |types| ==> !SuitableMemoryType(types, typeFilter, properties, j)
    ensures r.Err? ==> r.error == RuntimeError("failed to find suitable memory type!")
  {
    match FindMemoryTypeFrom(types, typeFilter, properties, 0)
    case Some(i) => Ok(i)
    case None => Err(RuntimeError("failed to find suitable memory type!"))
  }

  // ---------------------------------------------------------------------
  // findSupportedFormat

  /** The requested features are all present for the requested tiling;
      a tiling other than LINEAR or OPTIMAL supports nothing. */
  predicate SupportsFeatures(props: FormatProperties, tiling: ImageTiling, features: set<FormatFeature>) {
    (tiling == Linear && features <= props.linearTilingFeatures)
    || (tiling == Optimal && features <= props.optimalTilingFeatures)
  }

  /** The first candidate whose features for `tiling` include `features`. */
  function FindSupportedFormat(info: DeviceInfo, candidates: seq<Format>, tiling: ImageTiling, features: set<FormatFeature>): (r: Result<Format>)
    ensures r.Ok? ==> exists k :: 0 <= k < |candidates| && candidates[k] == r.value
                                  && SupportsFeatures(FormatPropertiesOf(info, r.value), tiling, features)
                                  && forall j :: 0 <= j < k ==> !SupportsFeatures(FormatPropertiesOf(info, candidates[j]), tiling, features)
    ensures r.Err? <==> forall j :: 0 <= j < |candidates| ==> !SupportsFeatures(FormatPropertiesOf(info, candidates[j]), tiling, features)
    ensures r.Err? ==> r.error == RuntimeError("failed to find supported format!")
    ensures tiling != Linear && tiling != Optimal ==> r.Err?
  {
    match Sequences.FirstIndex(candidates, (f: Format) => SupportsFeatures(FormatPropertiesOf(info, f), tiling, features))
    case Some(k) => Ok(candidates[k])
    case None => Err(RuntimeError("failed to find supported format!"))
  }

  // ---------------------------------------------------------------------
  // findQueueFamilies: specification

  /** Whether a family offers the capability looked for: graphics when
      `graphics`, presentation to the surface otherwise. */
  predicate Offers(f: QueueFamilyProperties, graphics: bool) {
    if graphics then f.graphics else f.presentSupport
  }

  /** The least index whose family offers the capability, if any. */
  function FirstOffering(families: seq<QueueFamilyProperties>, graphics: bool): (r: Option<nat>)
    ensures r.Some? ==> r.value < |families| && Offers(families[r.value], graphics)
    ensures r.Some? ==> forall j :: 0 <= j < r.value ==> !Offers(families[j], graphics)
    ensures r.None? <==> forall j :: 0 <= j < |families| ==> !Offers(families[j], graphics)
    decreases |families|
  {
    if |families| == 0 then None
    else if Offers(families[0], graphics) then Some(0)
    else
      var rest := FirstOffering(families[1..], graphics);
      assert forall j :: 1 <= j < |families| ==> families[j] == families[1..][j - 1];
      if rest.Some? then Some(rest.value + 1) else None
  }

  /** The greatest index below `n` whose family offers the capability. */
  function LastMatch(families: seq<QueueFamilyProperties>, n: nat, graphics: bool): (r: Option<nat>)
    requires n <= |families|
    ensures r.Some? ==> r.value < n && Offers(families[r.value], graphics)
    ensures r.Some? ==> forall j :: r.value < j < n ==> !Offers(families[j], graphics)
    ensures r.None? <==> forall j :: 0 <= j < n ==> !Offers(families[j], graphics)
  {
    if n == 0 then None
    else if Offers(families[n - 1], graphics) then Some(n - 1)
    else LastMatch(families, n - 1, graphics)
  }

  /** How many families the scan visits: up to and including the first
      index by which both a graphics and a presenting family have been
      seen, or all of them. */
  function ScanLength(families: seq<QueueFamilyProperties>): (n: nat)
    ensures n <= |families|
  {
    var g := FirstOffering(families, true);
    var p := FirstOffering(families, false);
    if g.Some? && p.Some? then (if g.value < p.value then p.value else g.value) + 1 else |families|
  }

  /** The families the scan reports: the last graphics family and the last
      presenting family among those it visited. */
  function SelectedQueueFamilies(families: seq<QueueFamilyProperties>): QueueFamilyIndices {
    var n := ScanLength(families);
    QueueFamilyIndices(LastMatch(families, n, true), LastMatch(families, n, false))
  }

  /** The scan finds both kinds of family exactly when the device has both;
      what it reports has the right capability. */
  lemma {:induction false} SelectedQueueFamiliesCorrect(families: seq<QueueFamilyProperties>)
    ensures SelectedQueueFamilies(families).IsComplete()
        <==> (exists i :: 0 <= i < |families| && families[i].graphics)
             && (exists j :: 0 <= j < |families| && families[j].presentSupport)
    ensures SelectedQueueFamilies(families).graphicsFamily.Some? ==>
              families[SelectedQueueFamilies(families).graphicsFamily.value].graphics
    ensures SelectedQueueFamilies(families).presentFamily.Some? ==>
              families[SelectedQueueFamilies(families).presentFamily.value].presentSupport
  {
    var g := FirstOffering(families, true);
    var p := FirstOffering(families, false);
    var n := ScanLength(families);
    if g.Some? && p.Some? {
      assert Offers(families[g.value], true) && g.value < n;
      assert Offers(families[p.value], false) && p.value < n;
    }
    if (exists i :: 0 <= i < |families| && families[i].graphics) {
      var i :| 0 <= i < |families| && families[i].graphics;
      assert Offers(families[i], true);
    }
    if (exists j :: 0 <= j < |families| && families[j].presentSupport) {
      var j :| 0 <= j < |families| && families[j].presentSupport;
      assert Offers(families[j], false);
    }
  }

  /** Both a graphics and a presenting family occur among the first `i`. */
  predicate BothSeenBefore(families: seq<QueueFamilyProperties>, i: nat) {
    var g := FirstOffering(families, true);
    var p := FirstOffering(families, false);
    g.Some? && p.Some? && g.value < i && p.value < i
  }

  /** Once both kinds have been seen among the first `i + 1` families, and
      not already among the first `i`, the scan ends at `i + 1`. */
  lemma ScanStops(families: seq<QueueFamilyProperties>, i: nat)
    requires i < |families|
    requires LastMatch(families, i + 1, true).Some? && LastMatch(families, i + 1, false).Some?
    requires !BothSeenBefore(families, i)
    ensures ScanLength(families) == i + 1
  {
    var g := FirstOffering(families, true);
    var p := FirstOffering(families, false);
    assert g.Some? && g.value <= LastMatch(families, i + 1, true).value;
    assert p.Some? && p.value <= LastMatch(families, i + 1, false).value;
  }

  /** While one kind is still missing among the first `i + 1` families, the
      scan has not reached its end. */
  lemma ScanContinues(families: seq<QueueFamilyProperties>, i: nat)
    requires i < |families|
    requires LastMatch(families, i + 1, true).None? || LastMatch(families, i + 1, false).None?
    ensures !BothSeenBefore(families, i + 1)
  {
  }

  /** A scan that never saw both kinds visits every family. */
  lemma ScanExhausts(families: seq<QueueFamilyProperties>)
    requires !BothSeenBefore(families, |families|)
    ensures ScanLength(families) == |families|
  {
  }

  // ---------------------------------------------------------------------
  // hasRequiredFeatures: specification

  predicate ExtensionsSupported(info: DeviceInfo) {
    forall e :: e in DEVICE_EXTENSIONS ==> e in info.extensions
  }

  /** Complete queue families, the required extensions, a surface with at
      least one format and one present mode, and sampler anisotropy. */
  predicate Suitable(info: DeviceInfo) {
    SelectedQueueFamilies(info.queueFamilies).IsComplete()
    && ExtensionsSupported(info)
    && |info.surface.formats| > 0
    && |info.surface.presentModes| > 0
    && info.samplerAnisotropy
  }

  class PhysicalDevice {
    /** The selected adapter; `None` is `VK_NULL_HANDLE`. */
    var physicalDevice: Option<DeviceInfo>
    /** How many times the surface capabilities, formats and present modes
        have been queried. */
    var swapChainQueries: nat

    constructor ()
      ensures physicalDevice == None && swapChainQueries == 0
    {
      physicalDevice := None;
      swapChainQueries := 0;
    }

    /** Scans the queue families in order, remembering the latest graphics
        and presenting family, and stops once both are known. */
    method FindQueueFamilies() returns (indices: QueueFamilyIndices)
      requires physicalDevice.Some?
      ensures indices == SelectedQueueFamilies(physicalDevice.value.queueFamilies)
    {
      var families := physicalDevice.value.queueFamilies;
      indices := QueueFamilyIndices(None, None);
      var i := 0;
      while i < |families|
        invariant 0 <= i <= |families|
        invariant indices == QueueFamilyIndices(LastMatch(families, i, true), LastMatch(families, i, false))
        invariant !BothSeenBefore(families, i)
      {
        indices := QueueFamilyIndices(if families[i].graphics then Some(i) else indices.graphicsFamily,
                                      if families[i].presentSupport then Some(i) else indices.presentFamily);
        if indices.IsComplete() {
          ScanStops(families, i);
          return;
        }
        ScanContinues(families, i);
        i := i + 1;
      }
      ScanExhausts(families);
    }

    /** Erases each offered extension from the set of required ones; the
        device qualifies when nothing is left. */
    method CheckDeviceExtensionSupport() returns (supported: bool)
      requires physicalDevice.Some?
      ensures supported <==> ExtensionsSupported(physicalDevice.value)
    {
      var available := physicalDevice.value.extensions;
      var required := set e | e in DEVICE_EXTENSIONS;
      var i := 0;
      while i < |available|
        invariant 0 <= i <= |available|
        invariant required == (set e | e in DEVICE_EXTENSIONS) - (set k | 0 <= k < i :: available[k])
      {
        required := required - {available[i]};
        i := i + 1;
      }
      supported := required == {};
      if supported {
        forall e | e in DEVICE_EXTENSIONS
          ensures e in available
        {
          assert e !in required;
        }
      } else {
        var e :| e in required;
        assert e !in available;
      }
    }

    /** Queries the surface capabilities and the format and present-mode
        lists, each of exactly the reported length. */
    method QuerySwapChainSupport() returns (details: SwapChainSupportDetails)
      requires physicalDevice.Some?
      modifies this
      ensures physicalDevice == old(physicalDevice)
      ensures details == physicalDevice.value.surface
      ensures swapChainQueries == old(swapChainQueries) + 1
    {
      swapChainQueries := swapChainQueries + 1;
      var reported := physicalDevice.value.surface;
      var formats: seq<SurfaceFormat> := [];
      if |reported.formats| != 0 {
        formats := reported.formats;
      }
      var presentModes: seq<PresentMode> := [];
      if |reported.presentModes| != 0 {
        presentModes := reported.presentModes;
      }
      details := SwapChainSupportDetails(reported.capabilities, formats, presentModes);
    }

    /** The selected adapter is usable; the surface is queried only when the
        extensions are present. */
    method HasRequiredFeatures() returns (suitable: bool)
      requires physicalDevice.Some?
      modifies this
      ensures physicalDevice == old(physicalDevice)
      ensures suitable == Suitable(physicalDevice.value)
      ensures swapChainQueries == old(swapChainQueries) + (if ExtensionsSupported(physicalDevice.value) then 1 else 0)
    {
      var indices := FindQueueFamilies();
      var extensionsSupported := CheckDeviceExtensionSupport();
      var swapChainAdequate := false;
      if extensionsSupported {
        var support := QuerySwapChainSupport();
        swapChainAdequate := |support.formats| != 0 && |support.presentModes| != 0;
      }
      suitable := indices.IsComplete() && extensionsSupported && swapChainAdequate
                  && physicalDevice.value.samplerAnisotropy;
    }
  }

  lemma RejectOneMore(devices: seq<DeviceInfo>, i: nat)
    requires i < |devices|
    requires forall j :: 0 <= j < i ==> !Suitable(devices[j])
    requires !Suitable(devices[i])
    ensures forall j :: 0 <= j < i + 1 ==> !Suitable(devices[j])
  {
  }

  /** Picks the first enumerated adapter that has the required features. */
  method NewPhysicalDevice(devices: seq<DeviceInfo>) returns (r: Result<PhysicalDevice>)
    ensures |devices| == 0 ==> r == Err(RuntimeError("failed to find GPUs with Vulkan support!"))
    ensures r.Ok? ==> fresh(r.value)
    ensures r.Ok? <==> exists k :: 0 <= k < |devices| && Suitable(devices[k])
    ensures r.Ok? ==> exists k :: 0 <= k < |devices| && r.value.physicalDevice == Some(devices[k])
                                  && Suitable(devices[k]) && forall j :: 0 <= j < k ==> !Suitable(devices[j])
    ensures |devices| > 0 && r.Err? ==> r.error == RuntimeError("failed to find a suitable GPU!")
  {
    if |devices| == 0 {
      return Err(RuntimeError("failed to find GPUs with Vulkan support!"));
    }
    var pd := new PhysicalDevice();
    var i := 0;
    while i < |devices|
      invariant 0 <= i <= |devices|
      invariant pd.physicalDevice == None
      invariant forall j :: 0 <= j < i ==> !Suitable(devices[j])
    {
      pd.physicalDevice := Some(devices[i]);
      var ok := pd.HasRequiredFeatures();
      if ok {
        assert Suitable(devices[i]);
        r := Ok(pd);
        assert r.value.physicalDevice == Some(devices[i]);
        return;
      }
      pd.physicalDevice := None;
      RejectOneMore(devices, i);
      i := i + 1;
    }
    assert !exists k :: 0 <= k < |devices| && Suitable(devices[k]);
    return Err(RuntimeError("failed to find a suitable GPU!"));
  }
}
