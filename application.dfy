/**
 * The orbit/zoom input state and the frame control flow of
 * src/application.cpp.
 *
 * `float` and `double` fields are reals. Every Vulkan or GLFW call whose
 * effect the source cannot observe (recording, submission, presentation,
 * destruction, the view-projection upload, waiting for window events) is
 * appended to an event log instead of being performed. The framebuffer
 * sizes GLFW reports while `resize` waits are an input sequence, and the
 * swapchain that `createSwapchain` builds is an input too.
 */
module App {
  import opened Wrappers
  import opened Debug

  /** `GLFW_KEY_ESCAPE`. */
  const GLFW_KEY_ESCAPE: int := 256
  /** `GLFW_MOUSE_BUTTON_LEFT`. */
  const GLFW_MOUSE_BUTTON_LEFT: int := 0
  /** `GLFW_RELEASE` and `GLFW_PRESS`. */
  const GLFW_RELEASE: int := 0
  const GLFW_PRESS: int := 1

  /** Bounds of the pitch angle, in degrees, and of the zoom factor. */
  const MAX_PITCH: real := 90.0
  const MIN_SCALE: real := 0.1
  const MAX_SCALE: real := 10.0

  /** A framebuffer size reported by `glfwGetFramebufferSize`. */
  datatype Size = Size(width: int, height: int)

  /** `VkExtent2D`. */
  datatype Extent = Extent(width: nat, height: nat)

  /** What `createSwapchain` produces: the swapchain extent and its number of images. */
  datatype SwapchainInfo = SwapchainInfo(extent: Extent, imageCount: nat)

  /** A framebuffer over the view of one swapchain image (and the depth image), at an extent. */
  datatype Framebuffer = Framebuffer(imageView: nat, extent: Extent)

  /** The calls the model records instead of performing them. */
  datatype Event =
    | UpdateViewProjUbo
    | WaitEvents
    | DeviceWaitIdle
    | RecordCommands(imageIndex: nat)
    | Submit
    | Present(imageIndex: nat)
    | DestroyFramebuffer(index: nat)
    | DestroyImageView(index: nat)
    | DestroyDepthImage
    | DestroySwapchain
    | CreateSwapchain(extent: Extent)
    | CreateSwapchainImages(count: nat)
    | CreateDepthBuffer(extent: Extent)
    | CreateFramebuffer(index: nat, extent: Extent)
    | CameraResize(extent: Extent)
  {
    /** The event releases a swapchain-dependent resource. */
    predicate IsDestroy()
    {
      DestroyFramebuffer? || DestroyImageView? || DestroyDepthImage? || DestroySwapchain?
    }
  }

  /** `glm::clamp`: `min(max(x, lo), hi)`. */
  function Clamp(x: real, lo: real, hi: real): (r: real)
    requires lo <= hi
    ensures lo <= r <= hi
    ensures lo <= x <= hi ==> r == x
    ensures x < lo ==> r == lo
    ensures hi < x ==> r == hi
  {
    var atLeast := if x < lo then lo else x;
    if hi < atLeast then hi else atLeast
  }

  /** `glm::abs`. */
  function Abs(x: real): real
  {
    if x < 0.0 then -x else x
  }

  /** The pitch correction of `cursorPositionCallback`: clamp only when the magnitude exceeds 90. */
  function ClampPitch(rotationY: real): (r: real)
    ensures -MAX_PITCH <= r <= MAX_PITCH
    ensures -MAX_PITCH <= rotationY <= MAX_PITCH ==> r == rotationY
  {
    if Abs(rotationY) > MAX_PITCH then Clamp(rotationY, -MAX_PITCH, MAX_PITCH) else rotationY
  }

  /** The magnitude guard changes nothing: the pitch correction is a plain clamp. */
  lemma ClampPitchIsClamp(rotationY: real)
    ensures ClampPitch(rotationY) == Clamp(rotationY, -MAX_PITCH, MAX_PITCH)
  {
  }

  /** The zoom step of `scrollCallback`: grow or shrink by a tenth per scroll unit, then clamp. */
  function Zoom(scale: real, yOffset: real): (r: real)
    ensures MIN_SCALE <= r <= MAX_SCALE
    ensures MIN_SCALE <= scale + yOffset * scale / 10.0 <= MAX_SCALE ==> r == scale + yOffset * scale / 10.0
  {
    Clamp(scale + yOffset * scale / 10.0, MIN_SCALE, MAX_SCALE)
  }

  /** Scrolling up never zooms out and scrolling down never zooms in. */
  lemma ZoomDirection(scale: real, yOffset: real)
    requires MIN_SCALE <= scale <= MAX_SCALE
    ensures yOffset > 0.0 ==> Zoom(scale, yOffset) >= scale
    ensures yOffset < 0.0 ==> Zoom(scale, yOffset) <= scale
  {
    if yOffset > 0.0 {
      assert yOffset * scale > 0.0;
    } else if yOffset < 0.0 {
      assert yOffset * scale < 0.0;
    }
  }

  /** Neither dimension is 0: `resize` stops waiting. */
  predicate NonZero(s: Size)
  {
    s.width != 0 && s.height != 0
  }

  /** Some report in the sequence has a usable size. */
  predicate SomeNonZero(sizes: seq<Size>)
  {
    exists i :: 0 <= i < |sizes| && NonZero(sizes[i])
  }

  /** The position of the first usable size: how many times `resize` waits for events. */
  function FirstNonZero(sizes: seq<Size>): (n: nat)
    requires SomeNonZero(sizes)
    ensures n < |sizes| && NonZero(sizes[n])
    ensures forall j :: 0 <= j < n ==> !NonZero(sizes[j])
  {
    if NonZero(sizes[0]) then 0
    else
      assert SomeNonZero(sizes[1..]) by {
        var i :| 0 <= i < |sizes| && NonZero(sizes[i]);
        assert sizes[1..][i - 1] == sizes[i];
      }
      1 + FirstNonZero(sizes[1..])
  }

  /** `n` calls to `glfwWaitEvents`. */
  function Waits(n: nat): (w: seq<Event>)
    ensures |w| == n && forall j :: 0 <= j < n ==> w[j] == WaitEvents
  {
    if n == 0 then [] else Waits(n - 1) + [WaitEvents]
  }

  /** The destroy loop of `resize`: framebuffer `i`, then image view `i`, for each old image. */
  function ImageTeardown(n: nat): (r: seq<Event>)
    ensures |r| == 2 * n
  {
    if n == 0 then [] else ImageTeardown(n - 1) + [DestroyFramebuffer(n - 1), DestroyImageView(n - 1)]
  }

  /** The loop of `createFramebuffers`: framebuffer `i` at the extent, for each image. */
  function FramebufferCreation(n: nat, extent: Extent): (r: seq<Event>)
    ensures |r| == n
  {
    if n == 0 then [] else FramebufferCreation(n - 1, extent) + [CreateFramebuffer(n - 1, extent)]
  }

  /** Everything `resize` does after `waits` waits, for `oldCount` old images and the new swapchain. */
  function ResizeEvents(waits: nat, oldCount: nat, next: SwapchainInfo): (r: seq<Event>)
    ensures |r| == waits + 2 * oldCount + next.imageCount + 8
    ensures r[|r| - 1] == UpdateViewProjUbo
  {
    Waits(waits) + [DeviceWaitIdle] + ImageTeardown(oldCount)
    + [DestroyDepthImage, DestroySwapchain,
       CreateSwapchain(next.extent), CreateSwapchainImages(next.imageCount), CreateDepthBuffer(next.extent)]
    + FramebufferCreation(next.imageCount, next.extent)
    + [CameraResize(next.extent), UpdateViewProjUbo]
  }

  /** The presentation results after which `renderFrame` resizes. */
  predicate PresentNeedsResize(present: VkResult)
  {
    present == VK_ERROR_OUT_OF_DATE_KHR || present == VK_SUBOPTIMAL_KHR
  }

  /** Some path through `renderFrame` calls `resize`. */
  predicate FrameResizes(acquire: VkResult, present: VkResult)
  {
    acquire == VK_ERROR_OUT_OF_DATE_KHR || PresentNeedsResize(present)
  }

  /** Everything `renderFrame` does, given the results of acquisition and presentation. */
  function FrameEvents(acquire: VkResult, imageIndex: nat, present: VkResult,
                       sizes: seq<Size>, oldCount: nat, next: SwapchainInfo): (r: seq<Event>)
    requires FrameResizes(acquire, present) ==> SomeNonZero(sizes)
    ensures acquire == VK_ERROR_OUT_OF_DATE_KHR ==>
      |r| == FirstNonZero(sizes) + 2 * oldCount + next.imageCount + 8 && r[|r| - 1] == UpdateViewProjUbo
    ensures acquire != VK_ERROR_OUT_OF_DATE_KHR && !PresentNeedsResize(present) ==> |r| == 4
    ensures acquire != VK_ERROR_OUT_OF_DATE_KHR && PresentNeedsResize(present) ==>
      |r| == FirstNonZero(sizes) + 2 * oldCount + next.imageCount + 12
    ensures acquire != VK_ERROR_OUT_OF_DATE_KHR ==> r[|r| - 1] == DeviceWaitIdle
  {
    if acquire == VK_ERROR_OUT_OF_DATE_KHR then
      ResizeEvents(FirstNonZero(sizes), oldCount, next)
    else
      [RecordCommands(imageIndex), Submit, Present(imageIndex)]
      + (if PresentNeedsResize(present) then ResizeEvents(FirstNonZero(sizes), oldCount, next) else [])
      + [DeviceWaitIdle]
  }

  /** The destroy loop releases framebuffer `i` at position `2i` and image view `i` right after it. */
  lemma {:induction false} ImageTeardownAt(n: nat, i: nat)
    requires i < n
    ensures |ImageTeardown(n)| == 2 * n
    ensures ImageTeardown(n)[2 * i] == DestroyFramebuffer(i)
    ensures ImageTeardown(n)[2 * i + 1] == DestroyImageView(i)
    decreases n
  {
    if i < n - 1 {
      ImageTeardownAt(n - 1, i);
    } else {
      if n - 1 > 0 {
        ImageTeardownAt(n - 1, 0);
      }
    }
  }

  /** The destroy loop only destroys: every event of it is a destroy event. */
  lemma {:induction false} ImageTeardownDestroys(n: nat)
    ensures forall j :: 0 <= j < |ImageTeardown(n)| ==> ImageTeardown(n)[j].IsDestroy()
    decreases n
  {
    if n > 0 {
      ImageTeardownDestroys(n - 1);
    }
  }

  /** `createFramebuffers` creates framebuffer `i`, at the extent, as its `i`-th event and nothing else. */
  lemma {:induction false} FramebufferCreationAt(n: nat, extent: Extent, i: nat)
    requires i < n
    ensures |FramebufferCreation(n, extent)| == n
    ensures FramebufferCreation(n, extent)[i] == CreateFramebuffer(i, extent)
    decreases n
  {
    if i < n - 1 {
      FramebufferCreationAt(n - 1, extent, i);
    } else if n - 1 > 0 {
      FramebufferCreationAt(n - 1, extent, 0);
    }
  }

  /** `createFramebuffers` only creates framebuffers: it destroys nothing. */
  lemma {:induction false} FramebufferCreationBuilds(n: nat, extent: Extent)
    ensures forall j :: 0 <= j < |FramebufferCreation(n, extent)| ==> FramebufferCreation(n, extent)[j].CreateFramebuffer?
    decreases n
  {
    if n > 0 {
      FramebufferCreationBuilds(n - 1, extent);
    }
  }

  /**
   * `resize` waits exactly `waits` times before anything else and destroys
   * nothing before the device is idle: the waits come first, then the idle
   * wait, then the destroy events, one after the other and nowhere else.
   */
  lemma ResizeWaitsBeforeDestroying(waits: nat, oldCount: nat, next: SwapchainInfo)
    ensures forall j :: 0 <= j < waits ==> ResizeEvents(waits, oldCount, next)[j] == WaitEvents
    ensures ResizeEvents(waits, oldCount, next)[waits] == DeviceWaitIdle
    ensures forall j :: 0 <= j < |ResizeEvents(waits, oldCount, next)| ==>
      (ResizeEvents(waits, oldCount, next)[j].IsDestroy() <==> waits < j <= waits + 2 * oldCount + 2)
  {
    var r := ResizeEvents(waits, oldCount, next);
    var teardown := ImageTeardown(oldCount);
    var creation := FramebufferCreation(next.imageCount, next.extent);
    ImageTeardownDestroys(oldCount);
    FramebufferCreationBuilds(next.imageCount, next.extent);
    if oldCount > 0 {
      ImageTeardownAt(oldCount, 0);
    } else {
      assert teardown == [];
    }
    var head := Waits(waits) + [DeviceWaitIdle] + teardown;
    var middle := [DestroyDepthImage, DestroySwapchain,
                   CreateSwapchain(next.extent), CreateSwapchainImages(next.imageCount), CreateDepthBuffer(next.extent)];
    assert r == head + middle + creation + [CameraResize(next.extent), UpdateViewProjUbo];
    forall j | 0 <= j < |r|
      ensures r[j].IsDestroy() <==> waits < j <= waits + 2 * oldCount + 2
    {
      if j < waits {
        assert r[j] == Waits(waits)[j];
      } else if j == waits {
        assert r[j] == DeviceWaitIdle;
      } else if j < |head| {
        assert r[j] == teardown[j - waits - 1];
      } else if j < |head| + |middle| {
        assert r[j] == middle[j - |head|];
      } else if j < |head| + |middle| + |creation| {
        assert r[j] == creation[j - |head| - |middle|];
      } else {
        assert r[j] == [CameraResize(next.extent), UpdateViewProjUbo][j - |head| - |middle| - |creation|];
      }
    }
  }

  /**
   * An out-of-date acquisition resizes and returns: nothing is recorded,
   * submitted or presented and the device is not waited on afterwards.
   * Otherwise the frame is recorded, submitted and presented first, and
   * the device is waited on last.
   */
  lemma FrameEventsOrder(acquire: VkResult, imageIndex: nat, present: VkResult,
                         sizes: seq<Size>, oldCount: nat, next: SwapchainInfo)
    requires FrameResizes(acquire, present) ==> SomeNonZero(sizes)
    ensures acquire == VK_ERROR_OUT_OF_DATE_KHR ==>
      && FrameEvents(acquire, imageIndex, present, sizes, oldCount, next) == ResizeEvents(FirstNonZero(sizes), oldCount, next)
      && Submit !in FrameEvents(acquire, imageIndex, present, sizes, oldCount, next)
      && RecordCommands(imageIndex) !in FrameEvents(acquire, imageIndex, present, sizes, oldCount, next)
      && Present(imageIndex) !in FrameEvents(acquire, imageIndex, present, sizes, oldCount, next)
    ensures acquire != VK_ERROR_OUT_OF_DATE_KHR ==>
      && FrameEvents(acquire, imageIndex, present, sizes, oldCount, next)[..3] == [RecordCommands(imageIndex), Submit, Present(imageIndex)]
      && FrameEvents(acquire, imageIndex, present, sizes, oldCount, next)[|FrameEvents(acquire, imageIndex, present, sizes, oldCount, next)| - 1] == DeviceWaitIdle
      && (PresentNeedsResize(present) <==>
          |FrameEvents(acquire, imageIndex, present, sizes, oldCount, next)| > 4)
  {
    if acquire == VK_ERROR_OUT_OF_DATE_KHR {
      var r := ResizeEvents(FirstNonZero(sizes), oldCount, next);
      NeverRendersWhileResizing(FirstNonZero(sizes), oldCount, next, imageIndex);
    } else if PresentNeedsResize(present) {
      var r := ResizeEvents(FirstNonZero(sizes), oldCount, next);
      assert |r| >= 1 by {
        assert r[FirstNonZero(sizes)] == DeviceWaitIdle by {
          ResizeWaitsBeforeDestroying(FirstNonZero(sizes), oldCount, next);
        }
      }
    }
  }

  /** `resize` itself records, submits and presents nothing. */
  lemma NeverRendersWhileResizing(waits: nat, oldCount: nat, next: SwapchainInfo, imageIndex: nat)
    ensures Submit !in ResizeEvents(waits, oldCount, next)
    ensures RecordCommands(imageIndex) !in ResizeEvents(waits, oldCount, next)
    ensures Present(imageIndex) !in ResizeEvents(waits, oldCount, next)
  {
    var r := ResizeEvents(waits, oldCount, next);
    ImageTeardownDestroys(oldCount);
    FramebufferCreationBuilds(next.imageCount, next.extent);
    var teardown := ImageTeardown(oldCount);
    var creation := FramebufferCreation(next.imageCount, next.extent);
    var head := Waits(waits) + [DeviceWaitIdle];
    var middle := [DestroyDepthImage, DestroySwapchain,
                   CreateSwapchain(next.extent), CreateSwapchainImages(next.imageCount), CreateDepthBuffer(next.extent)];
    var tail := [CameraResize(next.extent), UpdateViewProjUbo];
    assert r == head + teardown + middle + creation + tail;
    forall j | 0 <= j < |r|
      ensures !r[j].Submit? && !r[j].RecordCommands? && !r[j].Present?
    {
      if j < |head| {
        assert r[j] == head[j];
        if j < waits {
          assert r[j] == Waits(waits)[j];
        }
      } else if j < |head| + |teardown| {
        assert r[j] == teardown[j - |head|];
      } else if j < |head| + |teardown| + |middle| {
        assert r[j] == middle[j - |head| - |teardown|];
      } else if j < |head| + |teardown| + |middle| + |creation| {
        assert r[j] == creation[j - |head| - |teardown| - |middle|];
      } else {
        assert r[j] == tail[j - |head| - |teardown| - |middle| - |creation|];
      }
    }
  }

  /** `std::vector::resize`: keeps the first `n` entries and fills any new ones with null handles. */
  function Resized(framebuffers: seq<Option<Framebuffer>>, n: nat): (r: seq<Option<Framebuffer>>)
    ensures |r| == n
    ensures forall i :: 0 <= i < n && i < |framebuffers| ==> r[i] == framebuffers[i]
    ensures forall i :: |framebuffers| <= i < n ==> r[i] == None
  {
    if n <= |framebuffers| then framebuffers[..n] else framebuffers + seq(n - |framebuffers|, _ => None)
  }

  /**
   * The part of `Application` the input callbacks and the frame loop
   * update: the orbit/zoom state, the swapchain-dependent resources and
   * the log of the calls made.
   */
  class Application {
    var leftMouseButtonPressed: bool
    var cursorPosX: real
    var cursorPosY: real
    var rotationX: real
    var rotationY: real
    var scale: real
    const orbitNavSensitivity: real
    /** `glfwWindowShouldClose`. */
    var shouldClose: bool
    var swapchainExtent: Extent
    var imageCount: nat
    var framebuffers: seq<Option<Framebuffer>>
    var depthExtent: Extent
    var events: seq<Event>

    /** The pitch and the zoom are within their bounds and every image has its framebuffer at the swapchain extent. */
    predicate Valid()
      reads this`rotationY, this`scale, this`framebuffers, this`imageCount, this`swapchainExtent, this`depthExtent
    {
      && -MAX_PITCH <= rotationY <= MAX_PITCH
      && MIN_SCALE <= scale <= MAX_SCALE
      && FramebuffersMatch(framebuffers, imageCount, swapchainExtent)
      && depthExtent == swapchainExtent
    }

    /**
     * `Application()`: the member initialisers, then, of the setup calls
     * that touch the swapchain-dependent state, the depth buffer, the first
     * view-projection upload and the framebuffers. The swapchain is a
     * parameter: its creation is not part of this model.
     */
    constructor (swapchain: SwapchainInfo)
      ensures !leftMouseButtonPressed
      ensures cursorPosX == 0.0 && cursorPosY == 0.0
      ensures rotationX == 0.0 && rotationY == 0.0
      ensures scale == 1.0 && orbitNavSensitivity == 0.15
      ensures !shouldClose
      ensures swapchainExtent == swapchain.extent && imageCount == swapchain.imageCount
      ensures events == [CreateDepthBuffer(swapchain.extent), UpdateViewProjUbo]
                        + FramebufferCreation(swapchain.imageCount, swapchain.extent)
      ensures Valid()
    {
      leftMouseButtonPressed := false;
      cursorPosX, cursorPosY := 0.0, 0.0;
      rotationX, rotationY := 0.0, 0.0;
      scale := 1.0;
      orbitNavSensitivity := 0.15;
      shouldClose := false;
      swapchainExtent := swapchain.extent;
      imageCount := swapchain.imageCount;
      framebuffers := [];
      depthExtent := swapchain.extent;
      events := [CreateDepthBuffer(swapchain.extent), UpdateViewProjUbo];
      new;
      CreateFramebuffers();
    }

    /** `keyCallback`: Escape asks the window to close, whatever the action. */
    method KeyCallback(key: int, scancode: int, action: int, mods: int)
      modifies this`shouldClose
      ensures key == GLFW_KEY_ESCAPE ==> shouldClose
      ensures key != GLFW_KEY_ESCAPE ==> shouldClose == old(shouldClose)
    {
      if key == GLFW_KEY_ESCAPE {
        shouldClose := true;
      }
    }

    /** `mouseButtonCallback`: the left button's press and release set and clear the orbit flag. */
    method MouseButtonCallback(button: int, action: int, mods: int)
      modifies this`leftMouseButtonPressed
      ensures button == GLFW_MOUSE_BUTTON_LEFT && action == GLFW_PRESS ==> leftMouseButtonPressed
      ensures button == GLFW_MOUSE_BUTTON_LEFT && action == GLFW_RELEASE ==> !leftMouseButtonPressed
      ensures button != GLFW_MOUSE_BUTTON_LEFT || (action != GLFW_PRESS && action != GLFW_RELEASE) ==>
        leftMouseButtonPressed == old(leftMouseButtonPressed)
    {
      if button == GLFW_MOUSE_BUTTON_LEFT {
        if action == GLFW_PRESS {
          leftMouseButtonPressed := true;
        } else if action == GLFW_RELEASE {
          leftMouseButtonPressed := false;
        }
      }
    }

    /**
     * `cursorPositionCallback`: while the left button is held, the cursor
     * movement scaled by the sensitivity turns the camera, the pitch is
     * kept within 90 degrees and the view-projection is re-uploaded; the
     * cursor position is recorded in every case.
     */
    method CursorPositionCallback(x: real, y: real)
      requires Valid()
      modifies this`rotationX, this`rotationY, this`cursorPosX, this`cursorPosY, this`events
      ensures Valid()
      ensures cursorPosX == x && cursorPosY == y
      ensures old(leftMouseButtonPressed) ==>
        && rotationX == old(rotationX) + (x - old(cursorPosX)) * orbitNavSensitivity
        && rotationY == ClampPitch(old(rotationY) + (y - old(cursorPosY)) * orbitNavSensitivity)
        && events == old(events) + [UpdateViewProjUbo]
      ensures !old(leftMouseButtonPressed) ==>
        rotationX == old(rotationX) && rotationY == old(rotationY) && events == old(events)
    {
      if leftMouseButtonPressed {
        var dx := x - cursorPosX;
        var dy := y - cursorPosY;
        rotationX := rotationX + dx * orbitNavSensitivity;
        rotationY := rotationY + dy * orbitNavSensitivity;
        ghost var pitch := rotationY;
        assert pitch == old(rotationY) + (y - old(cursorPosY)) * orbitNavSensitivity;
        if Abs(rotationY) > MAX_PITCH {
          rotationY := Clamp(rotationY, -MAX_PITCH, MAX_PITCH);
        }
        assert rotationY == ClampPitch(pitch);
        events := events + [UpdateViewProjUbo];
      }
      cursorPosX := x;
      cursorPosY := y;
    }

    /**
     * `scrollCallback`: a vertical scroll scales the zoom by a tenth per
     * unit, within [0.1, 10], and re-uploads the view-projection; a scroll
     * without a vertical part does nothing.
     */
    method ScrollCallback(xOffset: real, yOffset: real)
      requires Valid()
      modifies this`scale, this`events
      ensures Valid()
      ensures yOffset == 0.0 ==> scale == old(scale) && events == old(events)
      ensures yOffset != 0.0 ==> scale == Zoom(old(scale), yOffset) && events == old(events) + [UpdateViewProjUbo]
    {
      if yOffset == 0.0 {
        return;
      }
      scale := scale + yOffset * scale / 10.0;
      scale := Clamp(scale, MIN_SCALE, MAX_SCALE);
      events := events + [UpdateViewProjUbo];
    }

    /** `createFramebuffers`: one framebuffer per swapchain image, at the swapchain extent. */
    method CreateFramebuffers()
      modifies this`framebuffers, this`events
      ensures FramebuffersMatch(framebuffers, imageCount, swapchainExtent)
      ensures events == old(events) + FramebufferCreation(imageCount, swapchainExtent)
    {
      framebuffers := Resized(framebuffers, imageCount);
      var i := 0;
      while i < imageCount
        invariant 0 <= i <= imageCount
        invariant |framebuffers| == imageCount
        invariant forall j :: 0 <= j < i ==> framebuffers[j] == Some(Framebuffer(j, swapchainExtent))
        invariant events == old(events) + FramebufferCreation(i, swapchainExtent)
      {
        framebuffers := framebuffers[i := Some(Framebuffer(i, swapchainExtent))];
        events := events + [CreateFramebuffer(i, swapchainExtent)];
        i := i + 1;
      }
    }

    /** The destroy loop of `resize`: framebuffer `i`, then image view `i`, for each current image. */
    method DestroyImages()
      modifies this`events
      ensures events == old(events) + ImageTeardown(imageCount)
    {
      assert ImageTeardown(0) == [];
      var i := 0;
      var size := imageCount;
      while i < size
        invariant 0 <= i <= size
        invariant events == old(events) + ImageTeardown(i)
      {
        AppendAssociative(old(events), ImageTeardown(i), [DestroyFramebuffer(i), DestroyImageView(i)]);
        events := events + [DestroyFramebuffer(i), DestroyImageView(i)];
        i := i + 1;
      }
    }

    /**
     * The wait loop of `resize`: one `glfwWaitEvents` per reported size with
     * a zero dimension, until a usable size arrives.
     */
    method WaitForSize(sizes: seq<Size>) returns (k: nat)
      requires SomeNonZero(sizes)
      modifies this`events
      ensures k == FirstNonZero(sizes)
      ensures events == old(events) + Waits(k)
    {
      k := 0;
      var width, height := sizes[0].width, sizes[0].height;
      while width == 0 || height == 0
        invariant k <= FirstNonZero(sizes)
        invariant width == sizes[k].width && height == sizes[k].height
        invariant events == old(events) + Waits(k)
        decreases FirstNonZero(sizes) - k
      {
        events := events + [WaitEvents];
        k := k + 1;
        width, height := sizes[k].width, sizes[k].height;
      }
    }

    /**
     * `resize`: waits until GLFW reports a size with no zero dimension,
     * then, with the device idle, destroys the framebuffers, image views,
     * depth image and swapchain and recreates them for the new swapchain.
     */
    method Resize(sizes: seq<Size>, next: SwapchainInfo)
      requires Valid() && SomeNonZero(sizes)
      modifies this`framebuffers, this`events, this`swapchainExtent, this`imageCount, this`depthExtent
      ensures Valid()
      ensures swapchainExtent == next.extent && imageCount == next.imageCount
      ensures events == old(events) + ResizeEvents(FirstNonZero(sizes), old(imageCount), next)
    {
      var k := WaitForSize(sizes);
      events := events + [DeviceWaitIdle];
      AppendAssociative(old(events), Waits(k), [DeviceWaitIdle]);
      ghost var done := Waits(k) + [DeviceWaitIdle];

      DestroyImages();
      AppendAssociative(old(events), done, ImageTeardown(old(imageCount)));
      done := done + ImageTeardown(old(imageCount));

      var rebuild := [DestroyDepthImage, DestroySwapchain,
                      CreateSwapchain(next.extent), CreateSwapchainImages(next.imageCount), CreateDepthBuffer(next.extent)];
      swapchainExtent := next.extent;
      imageCount := next.imageCount;
      depthExtent := swapchainExtent;
      events := events + rebuild;
      AppendAssociative(old(events), done, rebuild);
      done := done + rebuild;

      CreateFramebuffers();
      AppendAssociative(old(events), done, FramebufferCreation(next.imageCount, next.extent));
      done := done + FramebufferCreation(next.imageCount, next.extent);

      events := events + [CameraResize(swapchainExtent), UpdateViewProjUbo];
      AppendAssociative(old(events), done, [CameraResize(next.extent), UpdateViewProjUbo]);
    }

    /**
     * `renderFrame`: an out-of-date acquisition resizes and abandons the
     * frame; an acquired index with no framebuffer makes `recordRenderCommands`
     * raise from `mFramebuffers.at`; otherwise the frame is recorded,
     * submitted and presented, an out-of-date or suboptimal presentation
     * resizes, and the device is waited on.
     */
    method RenderFrame(acquire: VkResult, imageIndex: nat, present: VkResult, sizes: seq<Size>, next: SwapchainInfo)
      returns (r: Outcome<Error>)
      requires Valid()
      requires FrameResizes(acquire, present) ==> SomeNonZero(sizes)
      modifies this`framebuffers, this`events, this`swapchainExtent, this`imageCount, this`depthExtent
      ensures Valid()
      ensures r.Fail? <==> acquire != VK_ERROR_OUT_OF_DATE_KHR && imageIndex >= old(imageCount)
      ensures r.Fail? ==>
        && r.error == OutOfRange
        && events == old(events) && framebuffers == old(framebuffers)
        && swapchainExtent == old(swapchainExtent) && imageCount == old(imageCount)
      ensures r.Pass? ==> events == old(events) + FrameEvents(acquire, imageIndex, present, sizes, old(imageCount), next)
      ensures r.Pass? && FrameResizes(acquire, present) ==> swapchainExtent == next.extent && imageCount == next.imageCount
      ensures r.Pass? && !FrameResizes(acquire, present) ==>
        swapchainExtent == old(swapchainExtent) && imageCount == old(imageCount) && framebuffers == old(framebuffers)
    {
      if acquire == VK_ERROR_OUT_OF_DATE_KHR {
        Resize(sizes, next);
        return Pass;
      }
      if imageIndex >= |framebuffers| {
        return Fail(OutOfRange);
      }
      events := events + [RecordCommands(imageIndex), Submit, Present(imageIndex)];
      if PresentNeedsResize(present) {
        Resize(sizes, next);
      }
      events := events + [DeviceWaitIdle];
      r := Pass;
    }
  }

  /** Exactly `imageCount` framebuffers, the `i`-th over image view `i` at the extent. */
  predicate FramebuffersMatch(framebuffers: seq<Option<Framebuffer>>, imageCount: nat, extent: Extent)
  {
    && |framebuffers| == imageCount
    && forall i :: 0 <= i < imageCount ==> framebuffers[i] == Some(Framebuffer(i, extent))
  }
}
