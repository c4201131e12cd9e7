/** The Fabric FluidHelper: builds and transforms fluid ingredients (a fluid,
    an amount and an optional NBT tag) and computes their subtype key and
    colour tint. Fluids and tags are type parameters; what the helper asks of
    them comes in through FluidPlatform. */
module Fluids {
  import opened Wrappers
  import opened Subtypes

  /** Java's 64-bit `long`. */
  newtype Long = x: int | -0x8000_0000_0000_0000 <= x < 0x8000_0000_0000_0000

  /** JeiFluidIngredient: a fluid, an amount and an optional tag. */
  datatype FluidIngredient<F, Tag> = FluidIngredient(fluid: F, amount: Long, tag: Option<Tag>)

  /** What the helper takes from Fabric and Minecraft: FluidConstants.BUCKET,
      CompoundTag.isEmpty and CompoundTag.toString, and the rendering colour
      of a fluid variant (a fluid with an optional tag). */
  datatype FluidPlatform<!F, !Tag> = FluidPlatform(
    bucket: Long,
    tagIsEmpty: Tag -> bool,
    tagToString: Tag -> string,
    variantColor: (F, Option<Tag>) -> bv32)

  /** bucketVolume: the amount of one bucket of fluid, the platform's own
      constant. */
  function BucketVolume<F, Tag>(platform: FluidPlatform<F, Tag>): (r: Long)
    ensures r == platform.bucket
  {
    platform.bucket
  }

  /** getAmount: the amount the ingredient was built with. */
  function GetAmount<F, Tag>(ingredient: FluidIngredient<F, Tag>): (r: Long)
    ensures r == ingredient.amount
  {
    ingredient.amount
  }

  /** getTag: the tag the ingredient was built with, None when there is none. */
  function GetTag<F, Tag>(ingredient: FluidIngredient<F, Tag>): (r: Option<Tag>)
    ensures r == ingredient.tag
  {
    ingredient.tag
  }

  /** create(fluid, amount, tag), where a null tag is None. */
  function Create<F, Tag>(fluid: F, amount: Long, tag: Option<Tag>): (r: FluidIngredient<F, Tag>)
    ensures r.fluid == fluid && GetAmount(r) == amount && GetTag(r) == tag
  {
    FluidIngredient(fluid, amount, tag)
  }

  /** create(fluid, amount): an ingredient without a tag. */
  function CreateUntagged<F, Tag>(fluid: F, amount: Long): (r: FluidIngredient<F, Tag>)
    ensures r.fluid == fluid && GetAmount(r) == amount && GetTag(r).None?
  {
    FluidIngredient(fluid, amount, None)
  }

  /** copy: a new ingredient with the same fluid, amount and tag. */
  function Copy<F, Tag>(ingredient: FluidIngredient<F, Tag>): (r: FluidIngredient<F, Tag>)
    ensures r.fluid == ingredient.fluid && GetAmount(r) == GetAmount(ingredient) && GetTag(r) == GetTag(ingredient)
    ensures r == ingredient
  {
    Create(ingredient.fluid, GetAmount(ingredient), GetTag(ingredient))
  }

  /** normalize: the same fluid and tag, in the amount of one bucket. */
  function Normalize<F, Tag>(platform: FluidPlatform<F, Tag>, ingredient: FluidIngredient<F, Tag>): (r: FluidIngredient<F, Tag>)
    ensures r.fluid == ingredient.fluid && GetTag(r) == GetTag(ingredient)
    ensures GetAmount(r) == BucketVolume(platform)
  {
    Create(ingredient.fluid, BucketVolume(platform), GetTag(ingredient))
  }

  lemma NormalizeIdempotent<F, Tag>(platform: FluidPlatform<F, Tag>, ingredient: FluidIngredient<F, Tag>)
    ensures Normalize(platform, Normalize(platform, ingredient)) == Normalize(platform, ingredient)
  {
  }

  /** Normalizing forgets the amount: two ingredients that differ only in
      amount normalize to the same ingredient. */
  lemma NormalizeForgetsAmount<F, Tag>(platform: FluidPlatform<F, Tag>, ingredient: FluidIngredient<F, Tag>, amount: Long)
    ensures Normalize(platform, ingredient.(amount := amount)) == Normalize(platform, ingredient)
  {
  }

  /** The colour's value as a Java `int` (two's complement). */
  function AsJavaInt(b: bv32): int
  {
    if b < 0x8000_0000 then b as int else b as int - 0x1_0000_0000
  }

  /** getColorTint: the variant's colour with its alpha byte forced to 0xFF;
      the red, green and blue bytes are the variant's own, and as a Java
      `int` the tint is negative. */
  function GetColorTint<F, Tag>(platform: FluidPlatform<F, Tag>, ingredient: FluidIngredient<F, Tag>): (r: bv32)
    ensures r >> 24 == 0xFF
    ensures r & 0x00FF_FFFF == platform.variantColor(ingredient.fluid, GetTag(ingredient)) & 0x00FF_FFFF
    ensures AsJavaInt(r) < 0
  {
    var fluidColor := platform.variantColor(ingredient.fluid, GetTag(ingredient));
    fluidColor | 0xFF00_0000
  }

  /** The tint depends on the fluid and tag only, not on the amount. */
  lemma ColorTintIgnoresAmount<F, Tag>(platform: FluidPlatform<F, Tag>, ingredient: FluidIngredient<F, Tag>)
    ensures GetColorTint(platform, Normalize(platform, ingredient)) == GetColorTint(platform, ingredient)
  {
  }

  /** AllFluidNbt.apply: the subtype key of a fluid ingredient is the string
      form of its tag, or `none` (IIngredientSubtypeInterpreter.NONE) when
      the tag is absent or empty. */
  function AllFluidNbtApply<F, Tag>(platform: FluidPlatform<F, Tag>, none: string,
                                    ingredient: FluidIngredient<F, Tag>, context: UidContext): (r: string)
    ensures GetTag(ingredient).None? ==> r == none
    ensures GetTag(ingredient).Some? && platform.tagIsEmpty(GetTag(ingredient).value) ==> r == none
    ensures GetTag(ingredient).Some? && !platform.tagIsEmpty(GetTag(ingredient).value) ==>
      r == platform.tagToString(GetTag(ingredient).value)
  {
    GetTag(ingredient)
      .Filter(tag => !platform.tagIsEmpty(tag))
      .MapValue(platform.tagToString)
      .OrElse(none)
  }

  /** The subtype key does not depend on the amount or on the context, so
      copying and normalizing keep it. */
  lemma SubtypeIgnoresAmountAndContext<F, Tag>(platform: FluidPlatform<F, Tag>, none: string,
                                                ingredient: FluidIngredient<F, Tag>, amount: Long,
                                                context: UidContext, otherContext: UidContext)
    ensures AllFluidNbtApply(platform, none, ingredient.(amount := amount), otherContext)
         == AllFluidNbtApply(platform, none, ingredient, context)
    ensures AllFluidNbtApply(platform, none, Normalize(platform, ingredient), context)
         == AllFluidNbtApply(platform, none, ingredient, context)
    ensures AllFluidNbtApply(platform, none, Copy(ingredient), context)
         == AllFluidNbtApply(platform, none, ingredient, context)
  {
  }
}
