/**
 * Device and queue selection of src/vk/vulkan_functions.cpp.
 *
 * The enumerations the driver reports are inputs: the type of every
 * physical device in enumeration order, and the `queueFlags` word of every
 * queue family of the chosen device. Handles are replaced by positions in
 * those enumerations.
 */
module VulkanFunctions {
  import opened Wrappers
  import opened Debug

  /** `VkPhysicalDeviceType`. */
  datatype PhysicalDeviceType = Other | IntegratedGpu | DiscreteGpu | VirtualGpu | Cpu

  /** `VK_QUEUE_GRAPHICS_BIT`. */
  const VK_QUEUE_GRAPHICS_BIT: bv32 := 0x1

  /** `VK_EXT_DEBUG_UTILS_EXTENSION_NAME`. */
  const DEBUG_UTILS_EXTENSION_NAME: string := "VK_EXT_debug_utils"

  /** A queue family with these flags offers one of the requested capabilities. */
  predicate SharesBit(flags: bv32, capabilities: bv32)
  {
    flags & capabilities != 0
  }

  /**
   * The search loop of `pickPhysicalDevice`: scans the devices in
   * enumeration order and stops at the first one of the wanted type.
   */
  method SearchPhysicalDeviceType(devices: seq<PhysicalDeviceType>, wanted: PhysicalDeviceType)
    returns (found: bool, index: nat)
    ensures found <==> wanted in devices
    ensures found ==> index < |devices| && devices[index] == wanted && wanted !in devices[..index]
  {
    index := 0;
    while index < |devices|
      invariant index <= |devices|
      invariant wanted !in devices[..index]
    {
      if devices[index] == wanted {
        return true, index;
      }
      index := index + 1;
    }
    assert devices[..index] == devices;
    found := false;
  }

  /**
   * `findQueueFamilyIndex`: the first queue family whose flags share a bit
   * with `capabilities`, or none.
   */
  method FindQueueFamilyIndex(queueFlags: seq<bv32>, capabilities: bv32) returns (r: Option<nat>)
    ensures r.None? <==> forall i :: 0 <= i < |queueFlags| ==> !SharesBit(queueFlags[i], capabilities)
    ensures r.Some? ==> r.value < |queueFlags| && SharesBit(queueFlags[r.value], capabilities)
    ensures r.Some? ==> forall i :: 0 <= i < r.value ==> !SharesBit(queueFlags[i], capabilities)
  {
    var i := 0;
    while i < |queueFlags|
      invariant i <= |queueFlags|
      invariant forall j :: 0 <= j < i ==> !SharesBit(queueFlags[j], capabilities)
    {
      if SharesBit(queueFlags[i], capabilities) {
        return Some(i);
      }
      i := i + 1;
    }
    r := None;
  }

  /** `getInstanceExtensions`: the surface extensions, and debug utils only in a debug build. */
  function InstanceExtensions(debugMode: bool): (names: seq<string>)
    ensures |names| == if debugMode then 3 else 2
    ensures names[..2] == ["VK_KHR_surface", "VK_KHR_win32_surface"]
    ensures DEBUG_UTILS_EXTENSION_NAME in names <==> debugMode
  {
    var extensions := ["VK_KHR_surface", "VK_KHR_win32_surface"];
    if debugMode then extensions + [DEBUG_UTILS_EXTENSION_NAME] else extensions
  }

  /** `getDeviceExtensions`: the swapchain extension alone. */
  function DeviceExtensions(): (names: seq<string>)
    ensures |names| == 1 && "VK_KHR_swapchain" in names
  {
    ["VK_KHR_swapchain"]
  }

  /** A debug build enables every extension a release build does, in the same order, and one more. */
  lemma DebugExtensionsExtendRelease()
    ensures InstanceExtensions(true) == InstanceExtensions(false) + [DEBUG_UTILS_EXTENSION_NAME]
  {
  }

  /**
   * The part of `VulkanRenderDevice` that device creation writes: the chosen
   * physical device (its position in the enumeration) and the queue family
   * the graphics queue is taken from.
   */
  class RenderDevice {
    var physicalDevice: nat
    var graphicsQueueFamily: nat
    var deviceCreated: bool

    constructor ()
      ensures physicalDevice == 0 && graphicsQueueFamily == 0 && !deviceCreated
    {
      physicalDevice := 0;
      graphicsQueueFamily := 0;
      deviceCreated := false;
    }

    /**
     * `pickPhysicalDevice`: the first discrete GPU, otherwise the first
     * integrated GPU, otherwise a fatal `VK_INCOMPLETE`.
     */
    method PickPhysicalDevice(devices: seq<PhysicalDeviceType>) returns (r: Outcome<Error>)
      modifies this`physicalDevice
      ensures r.Pass? <==> DiscreteGpu in devices || IntegratedGpu in devices
      ensures DiscreteGpu in devices ==>
        physicalDevice < |devices| && devices[physicalDevice] == DiscreteGpu
        && DiscreteGpu !in devices[..physicalDevice]
      ensures DiscreteGpu !in devices && IntegratedGpu in devices ==>
        physicalDevice < |devices| && devices[physicalDevice] == IntegratedGpu
        && IntegratedGpu !in devices[..physicalDevice]
      ensures r.Fail? ==>
        && r == VulkanCheck(VK_INCOMPLETE, "Failed to find a suitable physical device", "pickPhysicalDevice")
        && physicalDevice == old(physicalDevice)
    {
      var foundDiscreteGpu, discrete := SearchPhysicalDeviceType(devices, DiscreteGpu);
      if foundDiscreteGpu {
        physicalDevice := discrete;
        return Pass;
      }
      var foundIntegratedGpu, integrated := SearchPhysicalDeviceType(devices, IntegratedGpu);
      if foundIntegratedGpu {
        physicalDevice := integrated;
        return Pass;
      }
      r := VulkanCheck(VK_INCOMPLETE, "Failed to find a suitable physical device", "pickPhysicalDevice");
    }

    /**
     * `createDevice`: takes the first graphics-capable family of the chosen
     * device (`.value()` raises when there is none, before anything is
     * created), then checks the result of `vkCreateDevice`.
     */
    method CreateDevice(queueFlags: seq<bv32>, createResult: VkResult) returns (r: Outcome<Error>)
      modifies this`graphicsQueueFamily, this`deviceCreated
      ensures (forall i :: 0 <= i < |queueFlags| ==> !SharesBit(queueFlags[i], VK_QUEUE_GRAPHICS_BIT)) ==>
        r == Fail(BadOptionalAccess)
      ensures (exists i :: 0 <= i < |queueFlags| && SharesBit(queueFlags[i], VK_QUEUE_GRAPHICS_BIT)) ==>
        r == VulkanCheck(createResult, "Failed to create logical device.", "createDevice")
      ensures r.Pass? ==>
        && deviceCreated
        && graphicsQueueFamily < |queueFlags|
        && SharesBit(queueFlags[graphicsQueueFamily], VK_QUEUE_GRAPHICS_BIT)
        && forall i :: 0 <= i < graphicsQueueFamily ==> !SharesBit(queueFlags[i], VK_QUEUE_GRAPHICS_BIT)
      ensures r.Fail? ==> deviceCreated == old(deviceCreated) && graphicsQueueFamily == old(graphicsQueueFamily)
    {
      var family := FindQueueFamilyIndex(queueFlags, VK_QUEUE_GRAPHICS_BIT);
      if family.None? {
        return Fail(BadOptionalAccess);
      }
      r := VulkanCheck(createResult, "Failed to create logical device.", "createDevice");
      if r.Fail? {
        return;
      }
      deviceCreated := true;
      graphicsQueueFamily := family.value;
    }
  }
}
