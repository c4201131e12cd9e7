/** ModIdHelper: decides whether and how the name of the mod that adds an
    ingredient is shown in that ingredient's tooltip. Tooltip lines are plain
    strings (text styling is not modelled). */
module ModIds {
  import opened Wrappers
  import opened Text
  import opened Subtypes

  /** What IModIdFormatConfig reports: the configured mod-name format
      (empty when the feature is off) and whether another mod is known to
      add mod names to item tooltips already. */
  datatype ModIdFormatConfig = ModIdFormatConfig(modNameFormat: string, modNameFormatOverrideActive: bool)

  /** What the helper takes from outside: the placeholder code of the format
      (ModIdFormatConfig.MOD_NAME_FORMAT_CODE), the platform's mod-name
      lookup and StringUtil.removeChatFormatting. */
  datatype Platform = Platform(
    modNameFormatCode: string,
    modNameForModId: string -> string,
    removeChatFormatting: string -> string)

  /** VanillaTypes.ITEM_STACK, or any other registered ingredient type. */
  datatype IngredientType = ItemStackType | OtherType(uid: string)

  /** The parts of IIngredientHelper that the tooltip code asks. */
  datatype IngredientHelper<!T> = IngredientHelper(
    displayModId: T -> string,
    errorInfo: T -> string,
    uniqueId: (T, UidContext) -> string)

  /** ITypedIngredient: an ingredient together with its registered type. */
  datatype TypedIngredient<T> = TypedIngredient(ingredientType: IngredientType, ingredient: T)

  /** A java.util.List of tooltip lines, updated in place by Add. */
  class LineList {
    var lines: seq<string>

    /** new ArrayList<>(source): a fresh list with the same lines. */
    constructor Copy(source: LineList)
      ensures lines == source.lines
    {
      lines := source.lines;
    }

    /** List.add: appends one line at the end. */
    method Add(line: string)
      modifies this
      ensures lines == old(lines) + [line]
    {
      lines := lines + [line];
    }
  }

  /** The feature is on exactly when the configured format is not empty. */
  predicate IsDisplayingModNameEnabled(config: ModIdFormatConfig)
    ensures IsDisplayingModNameEnabled(config) <==> |config.modNameFormat| > 0
  {
    !(config.modNameFormat == "")
  }

  /** The mod's name with chat formatting codes removed. */
  function StrippedModName(platform: Platform, modId: string): string
  {
    platform.removeChatFormatting(platform.modNameForModId(modId))
  }

  /** The text shown for the mod `modId`: the format with its first
      placeholder replaced by the mod name, or the format followed by the
      mod name when it has no placeholder, or the bare mod name when the
      format is empty. */
  function GetFormattedModNameForModId(config: ModIdFormatConfig, platform: Platform, modId: string): (r: string)
    ensures config.modNameFormat == "" ==> r == StrippedModName(platform, modId)
    ensures config.modNameFormat != "" && !Contains(config.modNameFormat, platform.modNameFormatCode) ==>
      r == config.modNameFormat + StrippedModName(platform, modId)
    ensures forall i: nat :: |platform.modNameFormatCode| > 0 && FirstOccurrence(config.modNameFormat, platform.modNameFormatCode, i) ==>
      r == config.modNameFormat[..i] + StrippedModName(platform, modId) + config.modNameFormat[i + |platform.modNameFormatCode|..]
    ensures config.modNameFormat != "" && platform.modNameFormatCode == "" ==> r == config.modNameFormat
  {
    var modName := StrippedModName(platform, modId);
    var format := config.modNameFormat;
    if format != "" then
      if Contains(format, platform.modNameFormatCode) then ReplaceOnce(format, platform.modNameFormatCode, modName)
      else format + modName
    else modName
  }

  /** With a non-empty placeholder code, the shown text always contains the
      mod name, whichever of the three shapes the format has. */
  lemma FormattedNameContainsModName(config: ModIdFormatConfig, platform: Platform, modId: string)
    requires |platform.modNameFormatCode| > 0
    ensures Contains(GetFormattedModNameForModId(config, platform, modId), StrippedModName(platform, modId))
  {
    var r := GetFormattedModNameForModId(config, platform, modId);
    var name := StrippedModName(platform, modId);
    var format := config.modNameFormat;
    var code := platform.modNameFormatCode;
    if format == "" {
      assert OccursAt(r, name, 0);
    } else if !Contains(format, code) {
      assert r[|format|..|format| + |name|] == name;
      assert OccursAt(r, name, |format|);
    } else {
      var i := IndexOf(format, code).value;
      assert r == format[..i] + name + format[i + |code|..];
      assert r[i..i + |name|] == name;
      assert OccursAt(r, name, i);
    }
  }

  /** Only the first placeholder is replaced: any later occurrence of the code
      in the format is still in the shown text, shifted by the length
      difference between mod name and code. */
  lemma LaterPlaceholdersUntouched(config: ModIdFormatConfig, platform: Platform, modId: string, i: nat, j: nat)
    requires |platform.modNameFormatCode| > 0
    requires FirstOccurrence(config.modNameFormat, platform.modNameFormatCode, i)
    requires i + |platform.modNameFormatCode| <= j && OccursAt(config.modNameFormat, platform.modNameFormatCode, j)
    ensures OccursAt(GetFormattedModNameForModId(config, platform, modId), platform.modNameFormatCode,
                     j - |platform.modNameFormatCode| + |StrippedModName(platform, modId)|)
  {
    var format, code, name := config.modNameFormat, platform.modNameFormatCode, StrippedModName(platform, modId);
    FormattedAtFirstPlaceholder(config, platform, modId, i);
    ShiftedOccurrence(format, code, GetFormattedModNameForModId(config, platform, modId), format[..i] + name,
                      i + |code|, j, j - |code| + |name|);
  }

  lemma FormattedAtFirstPlaceholder(config: ModIdFormatConfig, platform: Platform, modId: string, i: nat)
    requires |platform.modNameFormatCode| > 0
    requires FirstOccurrence(config.modNameFormat, platform.modNameFormatCode, i)
    ensures GetFormattedModNameForModId(config, platform, modId)
         == (config.modNameFormat[..i] + StrippedModName(platform, modId)) + config.modNameFormat[i + |platform.modNameFormatCode|..]
    ensures |config.modNameFormat[..i] + StrippedModName(platform, modId)| == i + |StrippedModName(platform, modId)|
  {
  }

  /** Whether a mod-name line is added, given whether the ingredient counts as
      an item stack: the feature must be on, and it is suppressed for item
      stacks while another mod adds mod names itself. */
  predicate ShowsModName(config: ModIdFormatConfig, isItemStack: bool)
  {
    IsDisplayingModNameEnabled(config) && !(config.modNameFormatOverrideActive && isItemStack)
  }

  /** The mod-name line for a typed ingredient, or None when none is shown. */
  function GetModNameForTooltip<T>(config: ModIdFormatConfig, platform: Platform,
                                   helperFor: IngredientType -> IngredientHelper<T>,
                                   typedIngredient: TypedIngredient<T>): (r: Option<string>)
    ensures r.None? <==>
      !IsDisplayingModNameEnabled(config) ||
      (config.modNameFormatOverrideActive && typedIngredient.ingredientType == ItemStackType)
    ensures r.Some? ==>
      r.value == GetFormattedModNameForModId(config, platform,
        helperFor(typedIngredient.ingredientType).displayModId(typedIngredient.ingredient))
  {
    if !IsDisplayingModNameEnabled(config) then None
    else if config.modNameFormatOverrideActive && typedIngredient.ingredientType.ItemStackType? then None
    else
      var helper := helperFor(typedIngredient.ingredientType);
      var modId := helper.displayModId(typedIngredient.ingredient);
      Some(GetFormattedModNameForModId(config, platform, modId))
  }

  /** With the feature off there is never a mod-name line, whatever the
      ingredient. */
  lemma NoModNameWhenDisabled<T>(config: ModIdFormatConfig, platform: Platform,
                                 helperFor: IngredientType -> IngredientHelper<T>,
                                 typedIngredient: TypedIngredient<T>)
    requires config.modNameFormat == ""
    ensures GetModNameForTooltip(config, platform, helperFor, typedIngredient) == None
  {
  }

  /** The three debug lines, in the order they are appended. */
  function DebugInfoLines<T>(ingredientHelper: IngredientHelper<T>, ingredient: T): seq<string>
  {
    ["JEI Debug:",
     "info: " + ingredientHelper.errorInfo(ingredient),
     "uid: " + ingredientHelper.uniqueId(ingredient, Ingredient)]
  }

  /** A fresh copy of `tooltip` followed by the three debug lines; the
      caller's list is left as it was. */
  method AddDebugInfo<T>(tooltip: LineList, ingredient: T, ingredientHelper: IngredientHelper<T>) returns (r: LineList)
    ensures fresh(r)
    ensures tooltip.lines == old(tooltip.lines)
    ensures |r.lines| == |tooltip.lines| + 3
    ensures r.lines[..|tooltip.lines|] == tooltip.lines
    ensures r.lines[|tooltip.lines|..] == DebugInfoLines(ingredientHelper, ingredient)
  {
    var copy := new LineList.Copy(tooltip);
    copy.Add("JEI Debug:");
    copy.Add("info: " + ingredientHelper.errorInfo(ingredient));
    copy.Add("uid: " + ingredientHelper.uniqueId(ingredient, Ingredient));
    r := copy;
  }

  /** The tooltip with the mod-name line added when one is shown, preceded by
      the debug lines when debug tooltips are on (`debugTooltips` stands for
      DebugConfig.isDebugModeEnabled() together with the game's
      advanced-tooltips option). Either the caller's own list comes back, when
      nothing is added, or a fresh list; the caller's list never changes.
      `instanceOfItemStack` is the run-time test `ingredient instanceof ItemStack`. */
  method AddModNameToIngredientTooltip<T>(config: ModIdFormatConfig, platform: Platform, debugTooltips: bool,
                                          tooltip: LineList, ingredient: T, ingredientHelper: IngredientHelper<T>,
                                          instanceOfItemStack: T -> bool)
    returns (r: LineList)
    ensures tooltip.lines == old(tooltip.lines)
    ensures r == tooltip || fresh(r)
    ensures !debugTooltips && !ShowsModName(config, instanceOfItemStack(ingredient)) ==> r == tooltip
    ensures debugTooltips || ShowsModName(config, instanceOfItemStack(ingredient)) ==> fresh(r)
    ensures r.lines ==
      tooltip.lines
      + (if debugTooltips then DebugInfoLines(ingredientHelper, ingredient) else [])
      + (if ShowsModName(config, instanceOfItemStack(ingredient))
         then [GetFormattedModNameForModId(config, platform, ingredientHelper.displayModId(ingredient))]
         else [])
  {
    var current := tooltip;
    if debugTooltips {
      current := AddDebugInfo(current, ingredient, ingredientHelper);
      assert current.lines == tooltip.lines + DebugInfoLines(ingredientHelper, ingredient);
    }
    if !IsDisplayingModNameEnabled(config) {
      return current;
    }
    if config.modNameFormatOverrideActive && instanceOfItemStack(ingredient) {
      return current;
    }
    var modId := ingredientHelper.displayModId(ingredient);
    var modName := GetFormattedModNameForModId(config, platform, modId);
    var copy := new LineList.Copy(current);
    copy.Add(modName);
    r := copy;
  }

  /** The overload for a typed ingredient: looks up the ingredient's helper by
      its type and delegates. When debug tooltips are off and the ingredient is
      an ItemStack exactly when its type is ITEM_STACK, the lines added are
      exactly what GetModNameForTooltip reports. */
  method AddModNameToTypedIngredientTooltip<T>(config: ModIdFormatConfig, platform: Platform, debugTooltips: bool,
                                               helperFor: IngredientType -> IngredientHelper<T>,
                                               tooltip: LineList, typedIngredient: TypedIngredient<T>,
                                               instanceOfItemStack: T -> bool)
    returns (r: LineList)
    ensures tooltip.lines == old(tooltip.lines)
    ensures r == tooltip || fresh(r)
    ensures !debugTooltips && !ShowsModName(config, instanceOfItemStack(typedIngredient.ingredient)) ==> r == tooltip
    ensures debugTooltips || ShowsModName(config, instanceOfItemStack(typedIngredient.ingredient)) ==> fresh(r)
    ensures r.lines ==
      tooltip.lines
      + (if debugTooltips then DebugInfoLines(helperFor(typedIngredient.ingredientType), typedIngredient.ingredient) else [])
      + (if ShowsModName(config, instanceOfItemStack(typedIngredient.ingredient))
         then [GetFormattedModNameForModId(config, platform,
                 helperFor(typedIngredient.ingredientType).displayModId(typedIngredient.ingredient))]
         else [])
    ensures !debugTooltips &&
            (instanceOfItemStack(typedIngredient.ingredient) <==> typedIngredient.ingredientType == ItemStackType) ==>
      r.lines == tooltip.lines + GetModNameForTooltip(config, platform, helperFor, typedIngredient).ToSeq()
  {
    var ingredientHelper := helperFor(typedIngredient.ingredientType);
    r := AddModNameToIngredientTooltip(config, platform, debugTooltips, tooltip, typedIngredient.ingredient,
                                       ingredientHelper, instanceOfItemStack);
  }
}
