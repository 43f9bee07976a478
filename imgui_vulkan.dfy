/**
 * The selection rules, buffer sizing, frame ring and texture cache of the
 * Vulkan backend of the ImGui layer
 * (TRAP/src/Layers/ImGui/ImGuiVulkanBackend.cpp).
 *
 * Vulkan calls are not made: what the driver reports (available formats
 * and modes, memory requirements, allocated descriptor sets) is passed in.
 * Vulkan handles are integers, VK_NULL_HANDLE is 0.
 */
module ImGuiVulkan {

  datatype Option<T> = None | Some(value: T)

  const UINT64_LIMIT: int := 0x1_0000_0000_0000_0000

  // ---------------------------------------------------------------------------
  // Present modes and image counts
  // ---------------------------------------------------------------------------

  datatype PresentMode = Immediate | Mailbox | Fifo | FifoRelaxed | OtherMode(code: int)

  /** ImGui_ImplVulkanH_GetMinImageCountFromPresentMode: triple buffering
      for mailbox, double for the FIFO modes, one image for immediate, and
      no answer for any other mode. */
  function MinImageCountOf(mode: PresentMode): (r: Option<int>)
    ensures r.Some? <==> !mode.OtherMode?
    ensures r.Some? ==> 1 <= r.value <= 3
    ensures mode == Mailbox ==> r == Some(3)
    ensures mode == Fifo || mode == FifoRelaxed ==> r == Some(2)
    ensures mode == Immediate ==> r == Some(1)
  {
    match mode
    case Mailbox => Some(3)
    case Fifo => Some(2)
    case FifoRelaxed => Some(2)
    case Immediate => Some(1)
    case OtherMode(_) => None
  }

  /** The image count the swapchain asks for: the given one, or when it is
      0 the count for the present mode, 1 when the mode has none; then
      raised to the surface's minimum, or lowered to its maximum when that
      is not 0 (unlimited). */
  function SwapchainImageCount(minImageCount: nat, mode: PresentMode, capMin: nat, capMax: nat): (r: nat)
    ensures capMax == 0 || capMin <= capMax ==> capMin <= r
    ensures capMax != 0 ==> r <= capMax || r == capMin
    ensures var wanted := if minImageCount == 0 then (match MinImageCountOf(mode) case Some(n) => n case None => 1)
                          else minImageCount;
            capMin <= wanted && (capMax == 0 || wanted <= capMax) ==> r == wanted
  {
    var wanted: nat := if minImageCount != 0 then minImageCount
                       else match MinImageCountOf(mode) case Some(n) => n case None => 1;
    if wanted < capMin then capMin
    else if capMax != 0 && wanted > capMax then capMax
    else wanted
  }

  /** The first requested mode that is available: None when none is. */
  function FirstAvailableMode(requests: seq<PresentMode>, available: seq<PresentMode>): (r: Option<PresentMode>)
    ensures r.Some? ==> r.value in requests && r.value in available
    ensures r.None? ==> forall m :: m in requests ==> m !in available
    ensures r.Some? ==>
      exists i :: (0 <= i < |requests| && requests[i] == r.value &&
                   forall j :: 0 <= j < i ==> requests[j] !in available)
  {
    if |requests| == 0 then None
    else if requests[0] in available then Some(requests[0])
    else
      var rest := FirstAvailableMode(requests[1..], available);
      if rest.Some? then
        var i :| 0 <= i < |requests[1..]| && requests[1..][i] == rest.value &&
                 (forall j :: 0 <= j < i ==> requests[1..][j] !in available);
        assert requests[i + 1] == rest.value;
        Some(rest.value)
      else None
  }

  /** ImGui_ImplVulkanH_SelectPresentMode: the first requested mode the
      surface offers, FIFO (which every surface offers) when it offers
      none of them. */
  method SelectPresentMode(requests: seq<PresentMode>, available: seq<PresentMode>) returns (mode: PresentMode)
    ensures mode == match FirstAvailableMode(requests, available) case Some(m) => m case None => Fifo
  {
    var r := 0;
    while r < |requests|
      invariant r <= |requests|
      invariant FirstAvailableMode(requests[r..], available) == FirstAvailableMode(requests, available)
    {
      var a := 0;
      while a < |available|
        invariant a <= |available| && requests[r] !in available[..a]
      {
        if requests[r] == available[a] {
          return requests[r];
        }
        a := a + 1;
      }
      assert available[..a] == available;
      assert requests[r..][1..] == requests[r + 1..];
      r := r + 1;
    }
    return Fifo;
  }

  // ---------------------------------------------------------------------------
  // Surface formats
  // ---------------------------------------------------------------------------

  /** VK_FORMAT_UNDEFINED. */
  const FormatUndefined: int := 0

  datatype SurfaceFormat = SurfaceFormat(format: int, colorSpace: int)

  /** Among the available entries, the first one matching the first
      requested format (in request order) that has one in the requested
      colour space. */
  function FirstMatch(requests: seq<int>, colorSpace: int, available: seq<SurfaceFormat>): (r: Option<SurfaceFormat>)
    ensures r.Some? ==> r.value in available && r.value.colorSpace == colorSpace && r.value.format in requests
    ensures r.None? ==> forall f :: f in requests ==> SurfaceFormat(f, colorSpace) !in available
    ensures r.Some? ==> r.value == SurfaceFormat(r.value.format, colorSpace)
    ensures r.Some? ==>
      exists i :: (0 <= i < |requests| && requests[i] == r.value.format &&
                   forall j :: 0 <= j < i ==> SurfaceFormat(requests[j], colorSpace) !in available)
  {
    if |requests| == 0 then None
    else if SurfaceFormat(requests[0], colorSpace) in available then Some(SurfaceFormat(requests[0], colorSpace))
    else
      var rest := FirstMatch(requests[1..], colorSpace, available);
      if rest.Some? then
        var i :| 0 <= i < |requests[1..]| && requests[1..][i] == rest.value.format &&
                 (forall j :: 0 <= j < i ==> SurfaceFormat(requests[1..][j], colorSpace) !in available);
        assert requests[i + 1] == rest.value.format;
        rest
      else None
  }

  /** ImGui_ImplVulkanH_SelectSurfaceFormat. A single available entry
      decides alone: VK_FORMAT_UNDEFINED there means any format is fine and
      the first requested one is taken in the requested colour space;
      otherwise it is the answer. With several entries the first requested
      format available in the requested colour space wins, and the first
      entry when there is none. The surface reports at least one format. */
  method SelectSurfaceFormat(requests: seq<int>, colorSpace: int, available: seq<SurfaceFormat>)
    returns (chosen: SurfaceFormat)
    requires |available| > 0
    requires |available| == 1 && available[0].format == FormatUndefined ==> |requests| > 0
    ensures |available| == 1 && available[0].format == FormatUndefined ==> chosen == SurfaceFormat(requests[0], colorSpace)
    ensures |available| == 1 && available[0].format != FormatUndefined ==> chosen == available[0]
    ensures |available| > 1 ==>
      chosen == match FirstMatch(requests, colorSpace, available) case Some(f) => f case None => available[0]
    ensures chosen in available || (|available| == 1 && available[0].format == FormatUndefined)
  {
    if |available| == 1 {
      if available[0].format == FormatUndefined {
        return SurfaceFormat(requests[0], colorSpace);
      }
      return available[0];
    }
    var r := 0;
    while r < |requests|
      invariant r <= |requests|
      invariant FirstMatch(requests[r..], colorSpace, available) == FirstMatch(requests, colorSpace, available)
    {
      var a := 0;
      while a < |available|
        invariant a <= |available| && SurfaceFormat(requests[r], colorSpace) !in available[..a]
      {
        if available[a].format == requests[r] && available[a].colorSpace == colorSpace {
          return available[a];
        }
        a := a + 1;
      }
      assert available[..a] == available;
      assert requests[r..][1..] == requests[r + 1..];
      r := r + 1;
    }
    return available[0];
  }

  // ---------------------------------------------------------------------------
  // Buffer sizes, the frame ring and the texture cache
  // ---------------------------------------------------------------------------

  /** The buffer size CreateOrResizeBuffer asks for: the requested size
      rounded up to a multiple of the alignment, in 64-bit unsigned
      arithmetic (the subtraction wraps for a size of 0). */
  function AlignedSize(newSize: nat, alignment: nat): (r: nat)
    requires alignment > 0 && newSize < UINT64_LIMIT
    ensures r < UINT64_LIMIT
  {
    var below := (newSize - 1) % UINT64_LIMIT;
    ((below / alignment + 1) * alignment) % UINT64_LIMIT
  }

  /** A positive size is rounded up to the least multiple of the alignment
      not below it, when that multiple fits 64 bits. */
  lemma AlignedSizeRoundsUp(newSize: nat, alignment: nat)
    requires alignment > 0 && 0 < newSize && newSize + alignment <= UINT64_LIMIT
    ensures AlignedSize(newSize, alignment) % alignment == 0
    ensures newSize <= AlignedSize(newSize, alignment) < newSize + alignment
  {
    var below := newSize - 1;
    assert (newSize - 1) % UINT64_LIMIT == below by { DivisionIsUnique(below, 0, below, UINT64_LIMIT); }
    var q := below / alignment;
    var rem := below % alignment;
    var up := (q + 1) * alignment;
    assert below == q * alignment + rem;
    assert up == q * alignment + alignment;
    DivisionIsUnique(up, q + 1, 0, alignment);
    DivisionIsUnique(up, 0, up, UINT64_LIMIT);
  }

  /** Euclidean division has one quotient and one remainder. */
  lemma DivisionIsUnique(x: int, q: int, r: int, d: int)
    requires d > 0 && 0 <= r < d && x == q * d + r
    ensures x / d == q && x % d == r
  {
    var q2, r2 := x / d, x % d;
    var k := q - q2;
    assert k * d == q * d - q2 * d;
    assert k * d == r2 - r;
    if k >= 1 {
      MultipleAtLeast(k, d);
    } else if k <= -1 {
      MultipleAtLeast(-k, d);
    }
  }

  lemma {:induction false} MultipleAtLeast(k: int, d: int)
    requires k >= 1 && d > 0
    ensures k * d >= d
    decreases k
  {
    if k > 1 {
      MultipleAtLeast(k - 1, d);
      assert k * d == (k - 1) * d + d;
    }
  }

  /** A size of 0 wraps around: with the default alignment of 256 it comes
      out as 0. */
  lemma AlignedSizeOfZero()
    ensures AlignedSize(0, 256) == 0
  {
    assert (UINT64_LIMIT - 1) / 256 + 1 == UINT64_LIMIT / 256;
  }

  datatype TextureDetails = TextureDetails(sampler: int, imageView: int, imageLayout: int, descriptorSet: int)

  /** The backend's state: the buffer memory alignment and the texture
      cache, keyed by image view. */
  class Backend {
    var bufferMemoryAlignment: nat
    var textureCache: map<int, TextureDetails>

    ghost predicate Valid()
      reads this
    {
      bufferMemoryAlignment >= 256
    }

    constructor()
      ensures Valid() && bufferMemoryAlignment == 256 && textureCache == map[]
    {
      bufferMemoryAlignment := 256;
      textureCache := map[];
    }

    /** CreateOrResizeBuffer's arithmetic: the new buffer has the requested
        size rounded up to the current alignment; the alignment becomes the
        larger of itself and the one the driver requires; the recorded size
        is the size the driver reports. */
    method CreateOrResizeBuffer(newSize: nat, requiredAlignment: nat, requiredSize: nat)
      returns (createdSize: nat, bufferSize: nat)
      requires Valid() && newSize < UINT64_LIMIT
      modifies this
      ensures Valid()
      ensures createdSize == AlignedSize(newSize, old(bufferMemoryAlignment))
      ensures bufferMemoryAlignment == if old(bufferMemoryAlignment) > requiredAlignment
                                       then old(bufferMemoryAlignment) else requiredAlignment
      ensures bufferMemoryAlignment >= old(bufferMemoryAlignment) && bufferMemoryAlignment >= requiredAlignment
      ensures bufferSize == requiredSize
      ensures textureCache == old(textureCache)
    {
      createdSize := AlignedSize(newSize, bufferMemoryAlignment);
      bufferMemoryAlignment := if bufferMemoryAlignment > requiredAlignment then bufferMemoryAlignment else requiredAlignment;
      bufferSize := requiredSize;
    }

    /** The check RenderDrawData makes before uploading a frame's vertex or
        index data: the buffer is (re)created only when it is missing or
        smaller than the data. The driver's memory size for a new buffer
        (driverSize) is at least the size the buffer was created with, so a
        buffer that is kept or recreated always holds the data. */
    method PrepareBuffer(hasBuffer: bool, bufferSize: nat, dataSize: nat, requiredAlignment: nat, driverSize: nat)
      returns (recreated: bool, newBufferSize: nat)
      requires Valid() && 0 < dataSize && dataSize + bufferMemoryAlignment <= UINT64_LIMIT
      requires driverSize >= AlignedSize(dataSize, bufferMemoryAlignment)
      modifies this
      ensures Valid()
      ensures recreated <==> !hasBuffer || bufferSize < dataSize
      ensures !recreated ==> newBufferSize == bufferSize && bufferMemoryAlignment == old(bufferMemoryAlignment)
      ensures recreated ==> newBufferSize == driverSize
      ensures newBufferSize >= dataSize
      ensures textureCache == old(textureCache)
    {
      if hasBuffer && bufferSize >= dataSize {
        return false, bufferSize;
      }
      AlignedSizeRoundsUp(dataSize, bufferMemoryAlignment);
      var createdSize;
      createdSize, newBufferSize := CreateOrResizeBuffer(dataSize, requiredAlignment, driverSize);
      recreated := true;
    }

    /** ImGui_ImplVulkan_AddTexture: an image view already cached gives its
        descriptor set back and nothing changes. Otherwise a descriptor set
        is allocated (firstAllocation; when that is the null handle a new
        pool is made and secondAllocation is used), cached with the sampler,
        view and layout, and returned. */
    method AddTexture(sampler: int, imageView: int, imageLayout: int, firstAllocation: int, secondAllocation: int)
      returns (textureId: int)
      modifies this
      ensures imageView in old(textureCache) ==>
        textureId == old(textureCache)[imageView].descriptorSet && textureCache == old(textureCache)
      ensures imageView !in old(textureCache) ==>
        textureId == (if firstAllocation != 0 then firstAllocation else secondAllocation) &&
        textureCache == old(textureCache)[imageView := TextureDetails(sampler, imageView, imageLayout, textureId)]
      ensures bufferMemoryAlignment == old(bufferMemoryAlignment)
    {
      if imageView in textureCache {
        return textureCache[imageView].descriptorSet;
      }
      var descriptorSet := firstAllocation;
      if descriptorSet == 0 {
        descriptorSet := secondAllocation;
      }
      textureCache := textureCache[imageView := TextureDetails(sampler, imageView, imageLayout, descriptorSet)];
      return descriptorSet;
    }

    /** ImGui_ImplVulkan_RemoveTexture: the view's entry goes, if it has
        one. */
    method RemoveTexture(imageView: int)
      modifies this
      ensures textureCache == old(textureCache) - {imageView}
      ensures bufferMemoryAlignment == old(bufferMemoryAlignment)
    {
      if imageView !in textureCache {
        return;
      }
      textureCache := textureCache - {imageView};
    }

    /** ImGui_ImplVulkan_ClearCache. */
    method ClearCache()
      modifies this
      ensures textureCache == map[]
      ensures bufferMemoryAlignment == old(bufferMemoryAlignment)
    {
      textureCache := map[];
    }
  }

  /** Removing a view that was just added returns the cache to what it was
      before; other views keep their entries. */
  lemma {:induction false} AddThenRemove(cache: map<int, TextureDetails>, view: int, details: TextureDetails)
    requires view !in cache
    ensures cache[view := details] - {view} == cache
  {
    var after := cache[view := details] - {view};
    assert forall k :: k in after <==> k in cache;
  }

  /** ImGui_ImplVulkanH_WindowRenderBuffers: the frame ring of one
      viewport. */
  class RenderBuffers {
    var index: nat
    var count: nat
    var inUse: bool

    constructor()
      ensures !inUse && index == 0 && count == 0
    {
      index, count, inUse := 0, 0, false;
    }

    /** The step ImGui_ImplVulkan_RenderDrawData makes each frame: the ring
        is set up with one slot per swapchain image on first use, then the
        index moves on to the next slot, wrapping around. */
    method NextFrame(imageCount: nat) returns (slot: nat)
      requires inUse ==> count > 0
      requires !inUse ==> imageCount > 0
      modifies this
      ensures inUse && count == (if old(inUse) then old(count) else imageCount)
      ensures index == ((if old(inUse) then old(index) else 0) + 1) % count
      ensures slot == index && slot < count
    {
      if !inUse {
        index, count, inUse := 0, imageCount, true;
      }
      index := (index + 1) % count;
      slot := index;
    }
  }

  /** The slot after `frames` frames from slot `start`. */
  function RingSlot(start: nat, count: nat, frames: nat): (r: nat)
    requires count > 0
    ensures r < count
  {
    if frames == 0 then start % count else (RingSlot(start, count, frames - 1) + 1) % count
  }

  /** After k frames from slot s the ring is at (s + k) mod count, so every
      slot is used once in count consecutive frames. */
  lemma {:induction false} RingSlotIsModular(start: nat, count: nat, frames: nat)
    requires count > 0
    ensures RingSlot(start, count, frames) == (start + frames) % count
  {
    if frames > 0 {
      RingSlotIsModular(start, count, frames - 1);
      var x := start + frames - 1;
      SuccessorRemainder(x, count);
      calc {
        RingSlot(start, count, frames);
        (RingSlot(start, count, frames - 1) + 1) % count;
        (x % count + 1) % count;
        (x + 1) % count;
      }
    }
  }

  /** Adding one to a number moves its remainder on by one, wrapping
      around. */
  lemma SuccessorRemainder(x: nat, d: int)
    requires d > 0
    ensures (x % d + 1) % d == (x + 1) % d
  {
    var q, r := x / d, x % d;
    assert x == q * d + r;
    if r + 1 == d {
      DivisionIsUnique(x + 1, q + 1, 0, d);
      DivisionIsUnique(r + 1, 1, 0, d);
    } else {
      DivisionIsUnique(x + 1, q, r + 1, d);
      DivisionIsUnique(r + 1, 0, r + 1, d);
    }
  }
}
