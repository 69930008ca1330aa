/** Scalar types, constants and wrappers shared by the three parts of the model.

    Vulkan handles, enums and flag words are opaque integers here: nothing in the
    modelled code looks at individual bits. */
module Vk {

  const U32_LIMIT: int := 0x1_0000_0000
  const U64_LIMIT: int := 0x1_0000_0000_0000_0000

  /** `uint32_t`, `VkFlags`, `VkAccessFlags`, `VkPipelineStageFlags`, ... */
  type u32 = x: int | 0 <= x < U32_LIMIT

  /** `VkDeviceSize` */
  type u64 = x: int | 0 <= x < U64_LIMIT

  /** `VK_QUEUE_FAMILY_IGNORED`, that is `~0U`. */
  const QUEUE_FAMILY_IGNORED: u32 := 0xFFFF_FFFF

  /** `VK_IMAGE_LAYOUT_UNDEFINED` */
  const IMAGE_LAYOUT_UNDEFINED: int := 0

  /** `VK_SAMPLE_COUNT_1_BIT` */
  const SAMPLE_COUNT_1: u32 := 1

  /** Unsigned 32-bit addition wraps modulo 2^32; this reduces an exact sum.
      It is written as repeated subtraction so that proofs about it stay linear;
      `WrapIsMod` relates it to `%`. */
  function Wrap32(x: nat): (r: u32)
    ensures x < U32_LIMIT ==> r == x
    decreases x
  {
    if x < U32_LIMIT then x else Wrap32(x - U32_LIMIT)
  }

  lemma {:induction false} WrapIsMod(x: nat)
    ensures Wrap32(x) == x % U32_LIMIT
    decreases x
  {
    if x >= U32_LIMIT {
      WrapIsMod(x - U32_LIMIT);
    }
  }

  /** Reducing before adding more does not change the wrapped total. */
  lemma {:induction false} WrapAdd(a: nat, b: nat)
    ensures Wrap32(Wrap32(a) + b) == Wrap32(a + b)
    decreases a
  {
    if a >= U32_LIMIT {
      WrapAdd(a - U32_LIMIT, b);
      assert Wrap32(a + b) == Wrap32(a - U32_LIMIT + b);
    }
  }

  datatype Option<+T> = None | Some(value: T)

  datatype Result<+R, +E> = Ok(value: R) | Err(error: E)
}
