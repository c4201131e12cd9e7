# Mod-name tooltips and Fabric fluid ingredients (Just Enough Items)

This project models two small pieces of the recipe viewer Just Enough Items (JEI) and proves properties about them:

- **ModIdHelper** (module `ModIds`). It decides whether an ingredient's tooltip gets a line naming the mod that adds the ingredient, and how that line is formatted from the configured mod-name format. When debug tooltips are on, it also appends the debug lines (error info and unique id). The Java `List` of tooltip lines is the class `ModIds.LineList`. Its `Copy` constructor and `Add` method model `new ArrayList<>(…)` and `List.add`. This lets the methods state that they return either the caller's own list or a fresh one, and that they never change the caller's list.
- **FluidHelper** for Fabric (module `Fluids`). A fluid ingredient is a value holding a fluid, a 64-bit amount and an optional NBT tag. The module covers creating, copying and normalizing ingredients, the colour tint, and the "all NBT" subtype interpreter.

Supporting modules:
- `Wrappers`: an `Option` whose `Filter`, `MapValue` and `OrElse` mirror `java.util.Optional`.
- `Text`: `String.indexOf` and `String.contains`, plus `StringUtils.replaceOnce` from Apache Commons Lang. An empty search string leaves the text unchanged, as in Apache Commons.
- `Subtypes`: the API's `UidContext`.

Things outside the code are parameters of the model:
- the format placeholder constant `ModIdFormatConfig.MOD_NAME_FORMAT_CODE`;
- `StringUtil.removeChatFormatting` and the platform's mod-name lookup (`ModIds.Platform`);
- the ingredient helpers' `getDisplayModId`, `getErrorInfo` and `getUniqueId` (`ModIds.IngredientHelper`);
- the ingredient manager's helper lookup (a function from ingredient type to helper);
- the run-time test `ingredient instanceof ItemStack`;
- the debug switch (`DebugConfig.isDebugModeEnabled()` together with the game's advanced-tooltips option);
- `FluidConstants.BUCKET`, `CompoundTag.isEmpty`/`toString` and the fluid variant's rendering colour (`Fluids.FluidPlatform`);
- `IIngredientSubtypeInterpreter.NONE`.

`GetAmount`, `GetTag` and `BucketVolume` are the plain accessors `getAmount`, `getTag` and `bucketVolume`. What they return for a built ingredient is stated in the contracts of `Create`, `Copy` and `Normalize`.

## Model

| member | source | states |
|---|---|---|
| `ModIds.IsDisplayingModNameEnabled` | Library/src/main/java/mezz/jei/library/helpers/ModIdHelper.java:37-41 | mod names are displayed if and only if the configured format is non-empty |
| `ModIds.GetFormattedModNameForModId` | Library/src/main/java/mezz/jei/library/helpers/ModIdHelper.java:101-113 | empty format gives the stripped mod name; a format without the placeholder gives format followed by name; otherwise the text before the first placeholder, then the name, then everything after that placeholder verbatim; an empty placeholder code leaves a non-empty format unchanged |
| `ModIds.FormattedNameContainsModName` | Library/src/main/java/mezz/jei/library/helpers/ModIdHelper.java:102-113 | with a non-empty placeholder code the shown text always contains the stripped mod name |
| `ModIds.LaterPlaceholdersUntouched` | Library/src/main/java/mezz/jei/library/helpers/ModIdHelper.java:106-108 | only the first placeholder is replaced; every later occurrence that does not overlap the first is still in the result, shifted by the length difference between mod name and code |
| `ModIds.GetModNameForTooltip` | Library/src/main/java/mezz/jei/library/helpers/ModIdHelper.java:70-88 | None exactly when display is off, or when the override is active and the type is ITEM_STACK; otherwise the formatted name for the ingredient's display mod id |
| `ModIds.NoModNameWhenDisabled` | Library/src/main/java/mezz/jei/library/helpers/ModIdHelper.java:71-74 | with an empty format no mod-name line is produced for any ingredient |
| `ModIds.AddDebugInfo` | Library/src/main/java/mezz/jei/library/helpers/ModIdHelper.java:90-99 | returns a fresh list: the caller's lines then "JEI Debug:", "info: …", "uid: …" in that order; the caller's list is unchanged |
| `ModIds.AddModNameToIngredientTooltip` | Library/src/main/java/mezz/jei/library/helpers/ModIdHelper.java:43-60 | the caller's list comes back itself when nothing is added (debug off and display disabled, or override with an ItemStack); otherwise a fresh list equal to the input plus the debug lines (if on) plus exactly one formatted mod-name line (if shown); the caller's list is never changed |
| `ModIds.AddModNameToTypedIngredientTooltip` | Library/src/main/java/mezz/jei/library/helpers/ModIdHelper.java:62-68 | delegates with the helper for the ingredient's type; the caller's list comes back itself when nothing is added, otherwise a fresh list with the same lines as the untyped overload; with debug off and instanceof agreeing with the type, the added lines are exactly GetModNameForTooltip's result |
| `Text.IndexOfFrom` | Library/src/main/java/mezz/jei/library/helpers/ModIdHelper.java:107 | the result is an occurrence at or after the start, with no earlier one; None means no occurrence at or after the start |
| `Text.IndexOf` | Library/src/main/java/mezz/jei/library/helpers/ModIdHelper.java:107 | a found index is the first occurrence; None means the pattern occurs nowhere |
| `Text.ContainsIffOccurs` | Library/src/main/java/mezz/jei/library/helpers/ModIdHelper.java:107 | `contains` holds if and only if the pattern occurs at some index |
| `Text.ReplaceOnce` | Library/src/main/java/mezz/jei/library/helpers/ModIdHelper.java:108 | unchanged when the search string is empty or absent; otherwise the first occurrence is replaced and the text around it kept |
| `Fluids.BucketVolume` | Fabric/src/main/java/mezz/jei/fabric/platform/FluidHelper.java:97-100 | the result is the platform's bucket constant |
| `Fluids.GetAmount` | Fabric/src/main/java/mezz/jei/fabric/platform/FluidHelper.java:86-89 | the result is the ingredient's own amount |
| `Fluids.GetTag` | Fabric/src/main/java/mezz/jei/fabric/platform/FluidHelper.java:91-94 | the result is the ingredient's own optional tag (None when absent) |
| `Fluids.Create` | Fabric/src/main/java/mezz/jei/fabric/platform/FluidHelper.java:102-105 | the ingredient has the given fluid, `getAmount` is the amount and `getTag` is the tag (None for null) |
| `Fluids.CreateUntagged` | Fabric/src/main/java/mezz/jei/fabric/platform/FluidHelper.java:107-110 | the given fluid and amount, no tag |
| `Fluids.Copy` | Fabric/src/main/java/mezz/jei/fabric/platform/FluidHelper.java:112-116 | fluid, amount and tag are preserved exactly |
| `Fluids.Normalize` | Fabric/src/main/java/mezz/jei/fabric/platform/FluidHelper.java:118-122 | fluid and tag preserved, amount set to `bucketVolume()` |
| `Fluids.NormalizeIdempotent` | Fabric/src/main/java/mezz/jei/fabric/platform/FluidHelper.java:118-122 | normalizing twice equals normalizing once |
| `Fluids.NormalizeForgetsAmount` | Fabric/src/main/java/mezz/jei/fabric/platform/FluidHelper.java:118-122 | ingredients differing only in amount normalize to the same ingredient |
| `Fluids.GetColorTint` | Fabric/src/main/java/mezz/jei/fabric/platform/FluidHelper.java:67-72 | the top byte is 0xFF, the low 24 bits are the variant colour's, and as a Java int the tint is negative |
| `Fluids.ColorTintIgnoresAmount` | Fabric/src/main/java/mezz/jei/fabric/platform/FluidHelper.java:67-84 | the tint depends only on fluid and tag, so normalizing keeps it |
| `Fluids.AllFluidNbtApply` | Fabric/src/main/java/mezz/jei/fabric/platform/FluidHelper.java:202-208 | NONE when the tag is absent or empty, otherwise the tag's string form |
| `Fluids.SubtypeIgnoresAmountAndContext` | Fabric/src/main/java/mezz/jei/fabric/platform/FluidHelper.java:202-208 | the subtype key depends neither on the amount nor on the context, so copy and normalize keep it |

## Left out

- Text styling of tooltip lines (`TextComponent`, `withStyle(ChatFormatting.DARK_GRAY)`): lines are plain strings.
- `getModNameForModId` (ModIdHelper.java:115-119) only forwards to the platform's mod helper. It is the `modNameForModId` parameter of `ModIds.Platform`.
- The ModIdHelper constructor only stores its two collaborators. The configuration is passed as a value, so a configuration that changes between calls is not modelled.
- `create(fluid, amount)` relies on a two-argument `JeiFluidIngredient` constructor. JeiFluidIngredient is not part of this model; `Fluids.CreateUntagged` takes that constructor to leave the tag absent.
- `getContainedFluid` is left out. It runs Fabric's transaction and storage API over an anonymous mutable item context.
- `getStillFluidSprite`, `getDisplayName`, `getTooltip` and `createRenderer` are left out. They are rendering calls into Minecraft and Fabric.
- `getFluidIngredientType` and `getAllNbtSubtypeInterpreter` are left out. They return registry constants.
- Object identity of fluid ingredients is not modelled. `copy` and `normalize` build new Java objects; the model compares them by value.
