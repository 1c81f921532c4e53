/**
 * The dynamic uniform buffer of the Vulkan engine (CreateUniformBuffers and
 * Update in GraphicsEngineVK.cpp): one world matrix per loaded model, each in
 * its own slot of a host buffer, slots one stride apart so that every slot
 * starts at a multiple of the device's minimum uniform-buffer offset
 * alignment.  Matrices are handled as their 64 bytes.
 */
module DynamicBuffer {
  import opened Vulkan
  import opened MappableVK

  /** sizeof(glm::mat4): sixteen floats. */
  const MAT4_SIZE: nat := 64

  /** 2^64: VkDeviceSize arithmetic wraps modulo this value. */
  const UINT64_MODULUS: nat := 0x1_0000_0000_0000_0000

  /** A VkDeviceSize value. */
  type Uint64 = x: nat | x < UINT64_MODULUS

  /** A matrix as the bytes the engine copies into a slot. */
  type MatrixBytes = m: seq<Byte> | |m| == MAT4_SIZE witness seq(64, _ => 0)

  /** x & ~m on the bits of x: the bits of x that are clear in m. */
  function AndNot(x: nat, m: nat): nat
    decreases x
  {
    if x == 0 then 0
    else 2 * AndNot(x / 2, m / 2) + (if x % 2 == 1 && m % 2 == 0 then 1 else 0)
  }

  /** Clearing bits never adds anything, and removes at most the value of the mask. */
  lemma {:induction false} AndNotBounds(x: nat, m: nat)
    ensures AndNot(x, m) <= x <= AndNot(x, m) + m
    decreases x
  {
    if x != 0 {
      AndNotBounds(x / 2, m / 2);
    }
  }

  lemma {:induction false} AndNotZero(x: nat)
    ensures AndNot(x, 0) == x
    decreases x
  {
    if x != 0 {
      AndNotZero(x / 2);
    }
  }

  /** s is a multiple of 2^k: its k low bits are clear. */
  predicate MultipleOfPow2(s: nat, k: nat)
    decreases k
  {
    k == 0 || (s % 2 == 0 && MultipleOfPow2(s / 2, k - 1))
  }

  lemma {:induction false} ZeroIsMultipleOfPow2(k: nat)
    ensures MultipleOfPow2(0, k)
    decreases k
  {
    if k > 0 {
      ZeroIsMultipleOfPow2(k - 1);
    }
  }

  /** Clearing the low k bits rounds down to a multiple of 2^k: the largest one not above x. */
  lemma {:induction false} AndNotLowBits(x: nat, k: nat)
    ensures MultipleOfPow2(AndNot(x, Pow2(k) - 1), k)
    ensures AndNot(x, Pow2(k) - 1) <= x < AndNot(x, Pow2(k) - 1) + Pow2(k)
    decreases k
  {
    if k == 0 {
      AndNotZero(x);
    } else if x == 0 {
      ZeroIsMultipleOfPow2(k);
    } else {
      var half := Pow2(k - 1);
      LowMaskHalves(k);
      AndNotLowBits(x / 2, k - 1);
      var y := AndNot(x / 2, half - 1);
      AndNotOddMask(x, Pow2(k) - 1);
      DoubledMultiple(y, k);
    }
  }

  /** The mask 2^k - 1 of k low bits is one low bit followed by the mask of k - 1 bits. */
  lemma LowMaskHalves(k: nat)
    requires k > 0
    ensures (Pow2(k) - 1) / 2 == Pow2(k - 1) - 1 && (Pow2(k) - 1) % 2 == 1
  {
  }

  /** Clearing a mask whose low bit is set clears x's low bit. */
  lemma AndNotOddMask(x: nat, m: nat)
    requires x > 0 && m % 2 == 1
    ensures AndNot(x, m) == 2 * AndNot(x / 2, m / 2)
  {
  }

  /** Doubling a multiple of 2^(k-1) gives a multiple of 2^k. */
  lemma DoubledMultiple(y: nat, k: nat)
    requires k > 0 && MultipleOfPow2(y, k - 1)
    ensures MultipleOfPow2(2 * y, k)
  {
    var z := 2 * y;
    assert z / 2 == y && z % 2 == 0;
    assert MultipleOfPow2(z / 2, k - 1);
  }

  /** Two distinct multiples of 2^k are at least 2^k apart. */
  lemma {:induction false} MultiplesOfPow2Apart(s: nat, t: nat, k: nat)
    requires MultipleOfPow2(s, k) && MultipleOfPow2(t, k) && s < t
    ensures s + Pow2(k) <= t
    decreases k
  {
    if k > 0 {
      MultiplesOfPow2Apart(s / 2, t / 2, k - 1);
    }
  }

  lemma {:induction false} Pow2Add(a: nat, b: nat)
    ensures Pow2(a + b) == Pow2(a) * Pow2(b)
    decreases b
  {
    if b > 0 {
      Pow2Add(a, b - 1);
    }
  }

  lemma {:induction false} Pow2Monotonic(a: nat, b: nat)
    requires a <= b
    ensures Pow2(a) <= Pow2(b)
    decreases b
  {
    if a < b {
      Pow2Monotonic(a, b - 1);
    }
  }

  lemma Pow2Squared(k: nat, v: nat)
    requires Pow2(k) == v
    ensures Pow2(k + k) == v * v
  {
    Pow2Add(k, k);
  }

  lemma Pow2SixtyFour()
    ensures Pow2(64) == UINT64_MODULUS
  {
    Pow2Squared(4, 16);
    Pow2Squared(8, 256);
    Pow2Squared(16, 0x1_0000);
    Pow2Squared(32, 0x1_0000_0000);
  }

  /** A power of two that fits in 64 bits is at most 2^63. */
  lemma PowerOfTwoFits(k: nat)
    requires Pow2(k) < UINT64_MODULUS
    ensures 2 * Pow2(k) <= UINT64_MODULUS
  {
    Pow2SixtyFour();
    if k >= 64 {
      Pow2Monotonic(64, k);
    } else {
      Pow2Monotonic(k + 1, 64);
    }
  }

  /**
   * The dynamic alignment CreateUniformBuffers computes from the device's
   * minUniformBufferOffsetAlignment: sizeof(glm::mat4) when the limit is 0,
   * otherwise (sizeof(glm::mat4) + minAlign - 1) & ~(minAlign - 1) in 64-bit
   * arithmetic.
   */
  function Stride(minAlign: Uint64): (stride: nat)
    ensures minAlign == 0 ==> stride == MAT4_SIZE
    ensures minAlign > 0 && MAT4_SIZE + minAlign - 1 < UINT64_MODULUS ==> MAT4_SIZE <= stride
  {
    if minAlign > 0 then
      var rounded := (MAT4_SIZE + minAlign - 1) % UINT64_MODULUS;
      AndNotBounds(rounded, minAlign - 1);
      AndNot(rounded, minAlign - 1)
    else
      MAT4_SIZE
  }

  /**
   * For a power-of-two alignment (Vulkan requires the limit to be one) the
   * stride is the least multiple of the alignment that holds a matrix.
   */
  lemma StrideIsLeastMultiple(minAlign: Uint64, k: nat)
    requires minAlign == Pow2(k)
    ensures MultipleOfPow2(Stride(minAlign), k) && Stride(minAlign) >= MAT4_SIZE
    ensures forall s: nat :: MultipleOfPow2(s, k) && s >= MAT4_SIZE ==> s >= Stride(minAlign)
  {
    PowerOfTwoFits(k);
    var x := MAT4_SIZE + minAlign - 1;
    assert x % UINT64_MODULUS == x;
    AndNotLowBits(x, k);
    var stride := Stride(minAlign);
    assert stride == AndNot(x, minAlign - 1);
    forall s: nat | MultipleOfPow2(s, k) && s >= MAT4_SIZE
      ensures s >= stride
    {
      if s < stride {
        MultiplesOfPow2Apart(s, stride, k);
      }
    }
  }

  /** Slot i of a buffer of n slots: bytes [i * stride, i * stride + sizeof(mat4)). */
  function SlotStart(i: nat, stride: nat): nat {
    i * stride
  }

  /** Every slot of n lies inside the stride * n bytes the engine allocates. */
  lemma SlotInBuffer(i: nat, n: nat, stride: nat)
    requires i < n && MAT4_SIZE <= stride
    ensures SlotStart(i, stride) + MAT4_SIZE <= stride * n
  {
    assert (i + 1) * stride <= n * stride;
  }

  /** Distinct slots do not overlap. */
  lemma SlotsDisjoint(i: nat, j: nat, stride: nat)
    requires i < j && MAT4_SIZE <= stride
    ensures SlotStart(i, stride) + MAT4_SIZE <= SlotStart(j, stride)
  {
    assert (i + 1) * stride <= j * stride;
  }

  /** Slot i of the buffer lies inside it and holds the matrix. */
  predicate SlotHolds(buffer: seq<Byte>, stride: nat, i: nat, matrix: seq<Byte>) {
    && SlotStart(i, stride) + MAT4_SIZE <= |buffer|
    && buffer[SlotStart(i, stride)..SlotStart(i, stride) + MAT4_SIZE] == matrix
  }

  /** The slot, if any, that a byte offset falls in. */
  predicate InSomeSlot(offset: nat, n: nat, stride: nat) {
    exists i :: 0 <= i < n && SlotStart(i, stride) <= offset < SlotStart(i, stride) + MAT4_SIZE
  }

  /** *reinterpret_cast<glm::mat4*>(buffer + stride * i) = matrix. */
  method WriteSlot(buffer: array<Byte>, stride: nat, i: nat, matrix: MatrixBytes)
    requires SlotStart(i, stride) + MAT4_SIZE <= buffer.Length
    modifies buffer
    ensures buffer[SlotStart(i, stride)..SlotStart(i, stride) + MAT4_SIZE] == matrix
    ensures forall b :: 0 <= b < buffer.Length && !(SlotStart(i, stride) <= b < SlotStart(i, stride) + MAT4_SIZE)
                        ==> buffer[b] == old(buffer[b])
  {
    var start := SlotStart(i, stride);
    forall k | 0 <= k < MAT4_SIZE {
      buffer[start + k] := matrix[k];
    }
  }

  /**
   * The slot loop of CreateUniformBuffers (and of Update, with the freshly
   * computed world matrices): slot i receives Models[ModelIndices[i]], for
   * every registered model, and the padding between slots is untouched.
   */
  method WriteSlots(buffer: array<Byte>, stride: nat, models: seq<MatrixBytes>, modelIndices: seq<nat>)
    requires |modelIndices| == |models| && MAT4_SIZE <= stride
    requires forall i :: 0 <= i < |modelIndices| ==> modelIndices[i] < |models|
    requires buffer.Length == stride * |models|
    modifies buffer
    ensures forall i :: 0 <= i < |models| ==> SlotHolds(buffer[..], stride, i, models[modelIndices[i]])
    ensures forall b :: 0 <= b < buffer.Length && !InSomeSlot(b, |models|, stride) ==> buffer[b] == old(buffer[b])
  {
    var i := 0;
    while i < |models|
      invariant 0 <= i <= |models|
      invariant forall j :: 0 <= j < i ==> SlotHolds(buffer[..], stride, j, models[modelIndices[j]])
      invariant forall b :: 0 <= b < buffer.Length && !InSomeSlot(b, i, stride) ==> buffer[b] == old(buffer[b])
    {
      SlotInBuffer(i, |models|, stride);
      ghost var before := buffer[..];
      WriteSlot(buffer, stride, i, models[modelIndices[i]]);
      assert SlotHolds(buffer[..], stride, i, models[modelIndices[i]]);
      forall j | 0 <= j < i
        ensures SlotHolds(buffer[..], stride, j, models[modelIndices[j]])
      {
        SlotsDisjoint(j, i, stride);
        assert SlotHolds(before, stride, j, models[modelIndices[j]]);
        assert buffer[SlotStart(j, stride)..SlotStart(j, stride) + MAT4_SIZE]
            == before[SlotStart(j, stride)..SlotStart(j, stride) + MAT4_SIZE];
      }
      forall b | 0 <= b < buffer.Length && !InSomeSlot(b, i + 1, stride)
        ensures buffer[b] == old(buffer[b])
      {
        assert !(SlotStart(i, stride) <= b < SlotStart(i, stride) + MAT4_SIZE);
        assert !InSomeSlot(b, i, stride);
      }
      i := i + 1;
    }
  }
}
