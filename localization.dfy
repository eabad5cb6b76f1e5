/**
 * The app's language choice and the table of built-in categories known in
 * every language. Looking a key up in the string tables (`localized`) is
 * passed in as a function; the bundle swizzling, the shared-container copy
 * and the refresh notifications are not modelled.
 */
module Localization {
  import opened Wrappers

  const DeviceSetting: string := "device"
  const SupportedLanguages: seq<string> := [DeviceSetting, "ja", "en", "zh-Hans"]

  /** `prefix(2)` of a language identifier. */
  function Prefix2(s: string): (r: string)
    ensures |r| <= 2 && |r| <= |s|
    ensures r == s[..|r|]
    ensures |s| >= 2 ==> |r| == 2
  {
    if |s| <= 2 then s else s[..2]
  }

  /**
   * `followDeviceLanguage`: the first preferred language (Japanese when the
   * list is empty) is reduced to its two-letter code; Japanese, English and
   * Chinese are kept and everything else becomes English.
   */
  function DeviceLanguage(preferredLanguages: seq<string>): (lang: string)
    ensures lang == "ja" || lang == "en" || lang == "zh-Hans"
    ensures preferredLanguages == [] ==> lang == "ja"
    ensures preferredLanguages != [] ==>
              (lang == "ja" <==> Prefix2(preferredLanguages[0]) == "ja")
              && (lang == "zh-Hans" <==> Prefix2(preferredLanguages[0]) == "zh")
  {
    var preferred := if preferredLanguages == [] then "ja" else preferredLanguages[0];
    var code := Prefix2(preferred);
    if code == "ja" then "ja"
    else if code == "en" then "en"
    else if code == "zh" then "zh-Hans"
    else "en"
  }

  /** Any regional variant of a supported language selects that language. */
  lemma RegionalVariants(region: string, rest: seq<string>)
    ensures DeviceLanguage(["ja" + region] + rest) == "ja"
    ensures DeviceLanguage(["en" + region] + rest) == "en"
    ensures DeviceLanguage(["zh" + region] + rest) == "zh-Hans"
  {
    assert Prefix2("ja" + region) == "ja";
    assert Prefix2("en" + region) == "en";
    assert Prefix2("zh" + region) == "zh";
  }

  /** `getLanguageName`; `followDevice` is the localized label of the device setting. */
  function LanguageName(code: string, followDevice: string): (r: string)
    ensures code !in SupportedLanguages ==> r == code
    ensures code == DeviceSetting ==> r == followDevice
    ensures code == "ja" ==> r == "日本語"
    ensures code == "en" ==> r == "English"
    ensures code == "zh-Hans" ==> r == "中文（简体）"
  {
    if code == DeviceSetting then followDevice
    else if code == "ja" then "日本語"
    else if code == "en" then "English"
    else if code == "zh-Hans" then "中文（简体）"
    else code
  }

  class LocalizationManager {
    var storedLanguage: string
    var currentLanguage: string

    /** `init`: a stored fixed language is used as is; otherwise the device decides. */
    constructor (stored: string, preferredLanguages: seq<string>)
      ensures storedLanguage == stored
      ensures stored == DeviceSetting || stored == [] ==> currentLanguage == DeviceLanguage(preferredLanguages)
      ensures stored != DeviceSetting && stored != [] ==> currentLanguage == stored
    {
      storedLanguage := stored;
      if stored == DeviceSetting || stored == [] {
        currentLanguage := DeviceLanguage(preferredLanguages);
      } else {
        currentLanguage := stored;
      }
    }

    /** `setLanguage`: remembers the choice and applies it. */
    method SetLanguage(language: string, preferredLanguages: seq<string>)
      modifies this
      ensures storedLanguage == language
      ensures language == DeviceSetting ==> currentLanguage == DeviceLanguage(preferredLanguages)
      ensures language != DeviceSetting ==> currentLanguage == language
    {
      storedLanguage := language;
      if language == DeviceSetting {
        currentLanguage := DeviceLanguage(preferredLanguages);
      } else {
        currentLanguage := language;
      }
    }
  }

  /** The fixed description of one built-in category. */
  datatype CategoryConfig = CategoryConfig(color: string, icon: string, defaultTagKeys: seq<string>,
                                           localizedNames: seq<string>)

  const WorkNames: seq<string> := ["仕事", "Work", "work", "工作"]
  const PersonalNames: seq<string> := ["プライベート", "Private", "Personal", "私人", "个人", "personal"]
  const IdeaNames: seq<string> := ["アイデア", "Ideas", "Idea", "ideas", "想法"]
  const PeopleNames: seq<string> := ["人物", "People", "people"]
  const OtherNames: seq<string> := ["その他", "Other", "other", "其他"]

  const CategoryConfigs: map<string, CategoryConfig> := map[
    "work" := CategoryConfig("#007AFF", "briefcase", ["meeting", "task", "deadline", "idea_tag"], WorkNames),
    "personal" := CategoryConfig("#FF6B35", "house", ["schedule", "memory", "health"], PersonalNames),
    "idea" := CategoryConfig("#34C759", "lightbulb", ["business", "creation", "improvement", "memo_tag"], IdeaNames),
    "people" := CategoryConfig("#AF52DE", "person", ["contacts", "conversation", "appointment", "relationship"], PeopleNames),
    "other" := CategoryConfig("#8E8E93", "folder", ["misc", "temp", "pending", "hold"], OtherNames)]

  /** The keys in some order; the dictionary's own order is unspecified. */
  const ConfigKeys: seq<string> := ["work", "personal", "idea", "people", "other"]

  const DefaultOrderKeys: seq<string> := ["work", "personal", "idea", "people"]
  const FallbackColor: string := "#8E8E93"
  const FallbackIcon: string := "folder"

  lemma ConfigKeysAreTheKeys()
    ensures forall k :: k in ConfigKeys <==> k in CategoryConfigs
  {
  }

  /** A name belongs to a key when it is one of the key's names or the key itself. */
  predicate NameOf(key: string, name: string)
  {
    key in CategoryConfigs && (name in CategoryConfigs[key].localizedNames || key == name)
  }

  /** The names of a key, the key included, spelled out per key. */
  function NamesOf(key: string): seq<string>
  {
    if key == "work" then WorkNames + ["work"]
    else if key == "personal" then PersonalNames + ["personal"]
    else if key == "idea" then IdeaNames + ["idea"]
    else if key == "people" then PeopleNames + ["people"]
    else if key == "other" then OtherNames + ["other"]
    else []
  }

  lemma NameOfIsNamesOf(key: string, name: string)
    ensures NameOf(key, name) <==> name in NamesOf(key)
  {
  }

  /** The name lists of two different keys share no name; one lemma per first key keeps each proof small. */
  lemma WorkDisjoint(name: string)
    requires name in NamesOf("work")
    ensures name !in NamesOf("personal") && name !in NamesOf("idea")
    ensures name !in NamesOf("people") && name !in NamesOf("other")
  {
  }

  lemma PersonalDisjoint(name: string)
    requires name in NamesOf("personal")
    ensures name !in NamesOf("idea") && name !in NamesOf("people") && name !in NamesOf("other")
  {
  }

  lemma IdeaDisjoint(name: string)
    requires name in NamesOf("idea")
    ensures name !in NamesOf("people") && name !in NamesOf("other")
  {
  }

  lemma PeopleDisjoint(name: string)
    requires name in NamesOf("people")
    ensures name !in NamesOf("other")
  {
  }

  /** No name belongs to two keys. */
  lemma NameOfUnique(k1: string, k2: string, name: string)
    requires NameOf(k1, name) && NameOf(k2, name)
    ensures k1 == k2
  {
    NameOfIsNamesOf(k1, name);
    NameOfIsNamesOf(k2, name);
    if name in NamesOf("work") {
      WorkDisjoint(name);
    } else if name in NamesOf("personal") {
      PersonalDisjoint(name);
    } else if name in NamesOf("idea") {
      IdeaDisjoint(name);
    } else if name in NamesOf("people") {
      PeopleDisjoint(name);
    }
  }

  /** The first key in `keys` the name belongs to. */
  function FirstKeyFor(keys: seq<string>, name: string): (r: Option<string>)
    ensures r.Some? ==> r.value in keys && NameOf(r.value, name)
    ensures r.None? ==> forall k :: k in keys ==> !NameOf(k, name)
  {
    if keys == [] then None
    else if NameOf(keys[0], name) then Some(keys[0])
    else FirstKeyFor(keys[1..], name)
  }

  /**
   * `baseKey(forLocalizedName:)`, iterating the configurations. Because no
   * name belongs to two keys the result does not depend on the order in
   * which the dictionary is walked (`BaseKeyAnyOrder`).
   */
  function BaseKey(name: string): (r: Option<string>)
    ensures r.Some? ==> NameOf(r.value, name)
    ensures r.None? <==> forall k :: !NameOf(k, name)
  {
    ConfigKeysAreTheKeys();
    FirstKeyFor(ConfigKeys, name)
  }

  /** Walking the keys in any order that covers them all gives the same answer. */
  lemma BaseKeyAnyOrder(keys: seq<string>, name: string)
    requires forall k :: k in keys <==> k in CategoryConfigs
    ensures FirstKeyFor(keys, name) == BaseKey(name)
  {
    var a, b := FirstKeyFor(keys, name), BaseKey(name);
    if a.Some? && b.Some? {
      NameOfUnique(a.value, b.value, name);
    }
  }

  /** Every key is its own base key. */
  lemma BaseKeyOfKey(key: string)
    requires key in CategoryConfigs
    ensures BaseKey(key) == Some(key)
  {
    assert NameOf(key, key);
    NameOfUnique(BaseKey(key).value, key, key);
  }

  /** `getLocalizedName`: a known name or key is shown in the current language; anything else as is. */
  function LocalizedName(category: string, localized: string -> string): (r: string)
    ensures BaseKey(category).Some? ==> r == localized(BaseKey(category).value)
    ensures BaseKey(category).None? ==> r == category
  {
    if BaseKey(category).Some? then localized(BaseKey(category).value)
    else if category in CategoryConfigs then localized(category)
    else category
  }

  /** The second branch of `getLocalizedName` is never taken: a key is always found as a name. */
  lemma KeyBranchUnreachable(category: string)
    requires category in CategoryConfigs
    ensures BaseKey(category).Some?
  {
    BaseKeyOfKey(category);
  }

  /** `getDefaultCategories`: the first four built-in categories, named in the current language. */
  function DefaultCategories(localized: string -> string): (r: seq<(string, string, string)>)
    ensures |r| == |DefaultOrderKeys|
    ensures forall i :: 0 <= i < |r| ==>
              r[i].0 == DefaultOrderKeys[i] && r[i].1 == localized(DefaultOrderKeys[i])
              && r[i].2 == CategoryConfigs[DefaultOrderKeys[i]].color
  {
    seq(|DefaultOrderKeys|, i requires 0 <= i < |DefaultOrderKeys| =>
      (DefaultOrderKeys[i], localized(DefaultOrderKeys[i]), ColorHex(DefaultOrderKeys[i])))
  }

  /** `allLocalizedVariants`: every name of the key and the key itself, each once (as a set; the order is unspecified). */
  function AllLocalizedVariants(key: string): (r: set<string>)
    ensures key in r
    ensures forall name :: name in r ==> name == key || (key in CategoryConfigs && NameOf(key, name))
    ensures key in CategoryConfigs ==> forall name :: NameOf(key, name) ==> name in r
  {
    var names := if key in CategoryConfigs then CategoryConfigs[key].localizedNames else [];
    (set n | n in names) + {key}
  }

  /** Every variant of a key leads back to that key. */
  lemma VariantsLeadBack(key: string, name: string)
    requires key in CategoryConfigs && name in AllLocalizedVariants(key)
    ensures BaseKey(name) == Some(key)
  {
    assert NameOf(key, name);
    NameOfUnique(BaseKey(name).value, key, name);
  }

  /** `colorHex(for:)`. */
  function ColorHex(key: string): (r: string)
    ensures key in CategoryConfigs ==> r == CategoryConfigs[key].color
    ensures key !in CategoryConfigs ==> r == FallbackColor
  {
    if key in CategoryConfigs then CategoryConfigs[key].color else FallbackColor
  }

  /** `iconName(for:)`. */
  function IconName(key: string): (r: string)
    ensures key in CategoryConfigs ==> r == CategoryConfigs[key].icon
    ensures key !in CategoryConfigs ==> r == FallbackIcon
  {
    if key in CategoryConfigs then CategoryConfigs[key].icon else FallbackIcon
  }

  /** `defaultTagKeys(for:)`. */
  function DefaultTagKeys(key: string): (r: seq<string>)
    ensures key in CategoryConfigs ==> r == CategoryConfigs[key].defaultTagKeys
    ensures key !in CategoryConfigs ==> r == []
  {
    if key in CategoryConfigs then CategoryConfigs[key].defaultTagKeys else []
  }

  /** `defaultQuickCategoryKeys`: the first three default keys. */
  function DefaultQuickCategoryKeys(): (r: seq<string>)
    ensures r == ["work", "personal", "idea"]
    ensures r == DefaultOrderKeys[..3]
  {
    DefaultOrderKeys[..3]
  }
}
