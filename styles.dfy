/** The chat-style table of index.js: the built-in styles, the custom styles
    kept in `settings.custom_styles` (an object whose key order is its
    insertion order), the list `settings.deleted_styles` of hidden ids, the
    prompt cache of `loadChatStyle`, and the style editor's current
    selection `currentEditingStyle`.

    Each editor operation is first defined as a transition of a `Table`
    value; the class `StyleStore` then performs it in place on its fields and
    is proved to make exactly that transition. */
module Styles {
  import opened JsString
  import opened Optional

  /** An entry of a style list: its id and its label (`val` and `label` in the source). */
  datatype StyleEntry = StyleEntry(id: string, title: string)

  /** A custom style: display name and system prompt. */
  datatype CustomStyle = CustomStyle(name: string, prompt: string)

  const BuiltInStyles: seq<StyleEntry> := [
    StyleEntry("twitch", "Discord / Twitch"), StyleEntry("verbose", "Thoughtful"),
    StyleEntry("twitter", "Twitter / X"), StyleEntry("news", "Breaking News"),
    StyleEntry("mst3k", "MST3K"), StyleEntry("nsfw_ava", "Ava NSFW"),
    StyleEntry("nsfw_kai", "Kai NSFW"), StyleEntry("hypebot", "HypeBot"),
    StyleEntry("doomscrollers", "Doomscrollers"), StyleEntry("dumbanddumber", "Dumb & Dumber")
  ]

  /** `STYLE_FILES`: the prompt file of each built-in style. */
  const StyleFiles: map<string, string> := map[
    "twitch" := "discordtwitch.md", "verbose" := "thoughtfulverbose.md",
    "twitter" := "twitterx.md", "news" := "breakingnews.md",
    "mst3k" := "mst3k.md", "nsfw_ava" := "nsfwava.md",
    "nsfw_kai" := "nsfwkai.md", "hypebot" := "hypebot.md",
    "doomscrollers" := "doomscrollers.md", "dumbanddumber" := "dumbanddumber.md"
  ]

  const DefaultStyleFile: string := "discordtwitch.md"
  /** What `loadChatStyle` returns when the prompt file cannot be fetched. */
  const FallbackStylePrompt: string := "Generate chat messages. Output: username: message"

  /** `STYLE_FILES[style] || 'discordtwitch.md'`. */
  function StyleFile(style: string): (f: string)
    ensures style in StyleFiles ==> f == StyleFiles[style]
    ensures style !in StyleFiles ==> f == DefaultStyleFile
  {
    if style in StyleFiles then StyleFiles[style] else DefaultStyleFile
  }

  predicate NoDuplicates(s: seq<string>) {
    forall i, j :: 0 <= i < j < |s| ==> s[i] != s[j]
  }

  /** The whole style state. `ids` is the key order of `custom`. */
  datatype Table = Table(
    ids: seq<string>,
    custom: map<string, CustomStyle>,
    deleted: seq<string>,
    cache: map<string, string>,
    editing: Option<string>)

  /** `ids` lists each key of `custom` exactly once. */
  predicate WellFormed(t: Table) {
    && NoDuplicates(t.ids)
    && (forall i :: 0 <= i < |t.ids| ==> t.ids[i] in t.custom)
    && (forall id :: id in t.custom ==> id in t.ids)
  }

  /** The initial state: no custom style, nothing hidden, nothing cached,
      nothing selected. */
  const EmptyTable: Table := Table([], map[], [], map[], None)

  // ---------------------------------------------------------------------
  // getAllStyles (index.js 461-468)
  // ---------------------------------------------------------------------

  /** The custom styles in key order, labelled with their names. */
  function CustomEntries(ids: seq<string>, custom: map<string, CustomStyle>): (r: seq<StyleEntry>)
    ensures |r| <= |ids|
    decreases |ids|
  {
    if ids == [] then []
    else
      var last := ids[|ids| - 1];
      CustomEntries(ids[..|ids| - 1], custom)
        + (if last in custom then [StyleEntry(last, custom[last].name)] else [])
  }

  /** `styles.filter(s => !deleted.includes(s.val))`. */
  function Visible(entries: seq<StyleEntry>, deleted: seq<string>): (r: seq<StyleEntry>)
    ensures |r| <= |entries|
    decreases |entries|
  {
    if entries == [] then []
    else
      var last := entries[|entries| - 1];
      Visible(entries[..|entries| - 1], deleted) + (if last.id in deleted then [] else [last])
  }

  function AllStyles(t: Table): seq<StyleEntry> {
    Visible(BuiltInStyles + CustomEntries(t.ids, t.custom), t.deleted)
  }

  lemma {:induction false} VisibleAppend(a: seq<StyleEntry>, b: seq<StyleEntry>, deleted: seq<string>)
    ensures Visible(a + b, deleted) == Visible(a, deleted) + Visible(b, deleted)
    decreases |b|
  {
    if b == [] {
      assert a + b == a;
    } else {
      VisibleAppend(a, b[..|b| - 1], deleted);
      assert (a + b)[..|a + b| - 1] == a + b[..|b| - 1];
    }
  }

  lemma {:induction false} VisibleMembers(entries: seq<StyleEntry>, deleted: seq<string>)
    ensures forall e :: e in Visible(entries, deleted) <==> e in entries && e.id !in deleted
    decreases |entries|
  {
    if entries != [] {
      VisibleMembers(entries[..|entries| - 1], deleted);
      assert entries == entries[..|entries| - 1] + [entries[|entries| - 1]];
    }
  }

  lemma {:induction false} CustomEntriesMembers(ids: seq<string>, custom: map<string, CustomStyle>)
    ensures forall e :: e in CustomEntries(ids, custom) <==>
      (e.id in ids && e.id in custom && e.title == custom[e.id].name)
    decreases |ids|
  {
    if ids != [] {
      CustomEntriesMembers(ids[..|ids| - 1], custom);
      assert ids == ids[..|ids| - 1] + [ids[|ids| - 1]];
    }
  }

  /** The list is the visible built-ins in their fixed order followed by the
      visible custom styles in key order; an entry is listed exactly when it
      is a built-in or a custom style under its name, and its id is not
      hidden. */
  lemma AllStylesShape(t: Table)
    ensures AllStyles(t) == Visible(BuiltInStyles, t.deleted) + Visible(CustomEntries(t.ids, t.custom), t.deleted)
    ensures forall e :: e in AllStyles(t) <==>
      (e in BuiltInStyles || (e.id in t.ids && e.id in t.custom && e.title == t.custom[e.id].name))
      && e.id !in t.deleted
  {
    VisibleAppend(BuiltInStyles, CustomEntries(t.ids, t.custom), t.deleted);
    VisibleMembers(BuiltInStyles + CustomEntries(t.ids, t.custom), t.deleted);
    CustomEntriesMembers(t.ids, t.custom);
  }

  /** Nothing hidden and no custom style: the built-ins in their order. */
  lemma DefaultListing()
    ensures AllStyles(EmptyTable) == BuiltInStyles
  {
    assert BuiltInStyles + CustomEntries([], map[]) == BuiltInStyles;
    NothingHidden(BuiltInStyles);
  }

  lemma {:induction false} NothingHidden(entries: seq<StyleEntry>)
    ensures Visible(entries, []) == entries
    decreases |entries|
  {
    if entries != [] {
      NothingHidden(entries[..|entries| - 1]);
    }
  }

  // ---------------------------------------------------------------------
  // loadChatStyle (index.js 470-483)
  // ---------------------------------------------------------------------

  /** The prompt for `style`: a custom style's prompt, else a non-empty cached
      prompt, else the fetched prompt file, else the fallback text.
      `fetchFile` gives the body of a successful fetch of a prompt file, or
      None when the fetch fails or returns a non-ok status. */
  function ChatStylePrompt(t: Table, style: string, fetchFile: string -> Option<string>): string {
    if style in t.custom then t.custom[style].prompt
    else if style in t.cache && t.cache[style] != "" then t.cache[style]
    else match fetchFile(StyleFile(style))
      case Some(content) => content
      case None => FallbackStylePrompt
  }

  /** Only a prompt fetched from its file is cached, empty or not. */
  function LoadState(t: Table, style: string, fetchFile: string -> Option<string>): Table {
    if style in t.custom || (style in t.cache && t.cache[style] != "") then t
    else match fetchFile(StyleFile(style))
      case Some(content) => t.(cache := t.cache[style := content])
      case None => t
  }

  /** A custom style wins over a built-in of the same id, whatever is cached
      and whatever the file holds. */
  lemma CustomShadowsBuiltIn(t: Table, style: string, f: string -> Option<string>, g: string -> Option<string>)
    requires style in t.custom
    ensures ChatStylePrompt(t, style, f) == ChatStylePrompt(t, style, g) == t.custom[style].prompt
    ensures LoadState(t, style, f) == t
  {
  }

  /** After a load that did not end on an empty or failed fetch, loading the
      same style again gives the same prompt without fetching. */
  lemma LoadIsCached(t: Table, style: string, f: string -> Option<string>, g: string -> Option<string>)
    requires style in t.custom || (style in t.cache && t.cache[style] != "")
      || (f(StyleFile(style)).Some? && f(StyleFile(style)).value != "")
    ensures ChatStylePrompt(LoadState(t, style, f), style, g) == ChatStylePrompt(t, style, f)
    ensures LoadState(LoadState(t, style, f), style, g) == LoadState(t, style, f)
  {
  }

  /** A failed fetch caches nothing: the next load fetches again. */
  lemma FailedLoadRetried(t: Table, style: string, f: string -> Option<string>, g: string -> Option<string>)
    requires style !in t.custom && !(style in t.cache && t.cache[style] != "")
    requires f(StyleFile(style)).None?
    ensures ChatStylePrompt(t, style, f) == FallbackStylePrompt
    ensures LoadState(t, style, f) == t
    ensures ChatStylePrompt(LoadState(t, style, f), style, g) == ChatStylePrompt(t, style, g)
  {
  }

  /** An unknown style reads the Discord/Twitch prompt file. */
  lemma UnknownStyleUsesDefaultFile(t: Table, style: string, f: string -> Option<string>)
    requires style !in t.custom && style !in t.cache && style !in StyleFiles
    ensures ChatStylePrompt(t, style, f) ==
      (match f(DefaultStyleFile) case Some(c) => c case None => FallbackStylePrompt)
  {
  }

  // ---------------------------------------------------------------------
  // Editing the table
  // ---------------------------------------------------------------------

  /** The keys in order with `id` removed. */
  function Without(ids: seq<string>, id: string): (r: seq<string>)
    ensures |r| <= |ids|
    ensures forall x :: x in r <==> x in ids && x != id
    decreases |ids|
  {
    if ids == [] then []
    else
      var init := Without(ids[..|ids| - 1], id);
      assert ids == ids[..|ids| - 1] + [ids[|ids| - 1]];
      if ids[|ids| - 1] == id then init else init + [ids[|ids| - 1]]
  }

  /** Removing from a concatenation removes from each part. */
  lemma {:induction false} WithoutAppend(a: seq<string>, b: seq<string>, id: string)
    ensures Without(a + b, id) == Without(a, id) + Without(b, id)
    decreases |b|
  {
    if b == [] {
      assert a + b == a;
    } else {
      var init := b[..|b| - 1];
      assert (a + b)[..|a + b| - 1] == a + init;
      assert (a + b)[|a + b| - 1] == b[|b| - 1];
      WithoutAppend(a, init, id);
    }
  }

  lemma {:induction false} WithoutAbsent(ids: seq<string>, id: string)
    requires id !in ids
    ensures Without(ids, id) == ids
    decreases |ids|
  {
    if ids != [] {
      WithoutAbsent(ids[..|ids| - 1], id);
    }
  }

  /** With each key listed once, removing one key takes out exactly its
      place: the keys before and after it stay, in their order. */
  lemma WithoutSplit(ids: seq<string>, p: seq<string>, q: seq<string>, id: string)
    requires NoDuplicates(ids) && ids == p + [id] + q
    ensures Without(ids, id) == p + q
  {
    assert id !in p by {
      assert ids[|p|] == id;
      assert forall i :: 0 <= i < |p| ==> ids[i] == p[i];
    }
    assert id !in q by {
      assert ids[|p|] == id;
      assert forall i :: 0 <= i < |q| ==> ids[|p| + 1 + i] == q[i];
    }
    WithoutAppend(p + [id], q, id);
    WithoutAppend(p, [id], id);
    WithoutAbsent(p, id);
    WithoutAbsent(q, id);
    assert Without([id], id) == [] by {
      assert [id][..0] == [];
    }
  }

  lemma {:induction false} WithoutKeepsDistinct(ids: seq<string>, id: string)
    requires NoDuplicates(ids)
    ensures NoDuplicates(Without(ids, id))
    decreases |ids|
  {
    if ids != [] {
      var init := ids[..|ids| - 1];
      WithoutKeepsDistinct(init, id);
      assert ids[|ids| - 1] !in init;
    }
  }

  /** `custom_styles[id] = style`: an existing key keeps its place, a new key
      goes last. */
  function Put(t: Table, id: string, style: CustomStyle): Table {
    t.(ids := if id in t.custom then t.ids else t.ids + [id], custom := t.custom[id := style])
  }

  /** `delete custom_styles[id]`. */
  function Remove(t: Table, id: string): Table {
    t.(ids := Without(t.ids, id), custom := t.custom - {id})
  }

  lemma PutWellFormed(t: Table, id: string, style: CustomStyle)
    requires WellFormed(t)
    ensures WellFormed(Put(t, id, style))
  {
  }

  lemma RemoveWellFormed(t: Table, id: string)
    requires WellFormed(t)
    ensures WellFormed(Remove(t, id))
  {
    WithoutKeepsDistinct(t.ids, id);
    var r := Without(t.ids, id);
    assert forall i :: 0 <= i < |r| ==> r[i] in r;
  }

  /** `if (!currentEditingStyle)`: nothing, or the empty id, is selected. */
  predicate Selected(editing: Option<string>) {
    editing.Some? && editing.value != ""
  }

  /** `selectStyleInEditor(id)`: the style becomes the selection, and the
      prompt shown in the editor is loaded as `loadChatStyle` loads it, so a
      built-in style's prompt file may be fetched and cached. */
  function SelectSpec(t: Table, id: string, fetchFile: string -> Option<string>): Table {
    LoadState(t, id, fetchFile).(editing := Some(id))
  }

  /** Selecting a style lists the same styles as before, edits no custom
      style and hides nothing; a custom style is selected without any
      fetch. */
  lemma SelectKeepsStyles(t: Table, id: string, f: string -> Option<string>)
    requires WellFormed(t)
    ensures var u := SelectSpec(t, id, f);
      && WellFormed(u) && u.custom == t.custom && u.ids == t.ids && u.deleted == t.deleted
      && AllStyles(u) == AllStyles(t) && u.editing == Some(id)
    ensures id in t.custom ==> SelectSpec(t, id, f) == t.(editing := Some(id))
  {
  }

  /** The id under which an edited built-in style is saved. */
  function EditedCopyId(current: string, now: nat): string {
    "custom_" + current + "_" + NatToString(now)
  }

  /** `saveStyleFromEditor` (index.js 1105-1138) with the contents of the
      name and prompt fields and the clock reading `now`. */
  function SaveSpec(t: Table, nameField: string, content: string, now: nat): Table {
    if !Selected(t.editing) || Trim(nameField) == "" then t
    else
      var current := t.editing.value;
      var name := Trim(nameField);
      if current in t.custom then Put(t, current, CustomStyle(name, content))
      else
        var id := EditedCopyId(current, now);
        Put(t, id, CustomStyle(name + " (Custom)", content)).(editing := Some(id))
  }

  /** `deleteStyleFromEditor` (index.js 1153-1165); `confirmed` is the
      answer to the confirmation dialog. */
  function DeleteSpec(t: Table, confirmed: bool): Table {
    if !Selected(t.editing) || !confirmed then t
    else
      var current := t.editing.value;
      if current in t.custom then Remove(t, current).(editing := None)
      else t.(deleted := t.deleted + [current], editing := None)
  }

  lemma SaveWellFormed(t: Table, nameField: string, content: string, now: nat)
    requires WellFormed(t)
    ensures WellFormed(SaveSpec(t, nameField, content, now))
  {
  }

  lemma DeleteWellFormed(t: Table, confirmed: bool)
    requires WellFormed(t)
    ensures WellFormed(DeleteSpec(t, confirmed))
  {
    if Selected(t.editing) && confirmed && t.editing.value in t.custom {
      RemoveWellFormed(t, t.editing.value);
    }
  }

  /** Saving a selected custom style rewrites it in place: same key order,
      same selection, new name and prompt, everything else untouched. */
  lemma SaveCustomInPlace(t: Table, nameField: string, content: string, now: nat)
    requires WellFormed(t) && Selected(t.editing) && t.editing.value in t.custom
    requires Trim(nameField) != ""
    ensures var u := SaveSpec(t, nameField, content, now);
      && u.ids == t.ids && u.editing == t.editing && u.deleted == t.deleted && u.cache == t.cache
      && u.custom == t.custom[t.editing.value := CustomStyle(Trim(nameField), content)]
  {
  }

  /** Saving a selected built-in style leaves it alone and adds, last, a
      custom copy named "<name> (Custom)", which becomes the selection. */
  lemma SaveBuiltInAsCopy(t: Table, nameField: string, content: string, now: nat)
    requires WellFormed(t) && Selected(t.editing) && t.editing.value !in t.custom
    requires Trim(nameField) != ""
    requires EditedCopyId(t.editing.value, now) !in t.custom
    ensures var id := EditedCopyId(t.editing.value, now);
      var u := SaveSpec(t, nameField, content, now);
      && u.ids == t.ids + [id] && u.editing == Some(id)
      && u.custom == t.custom[id := CustomStyle(Trim(nameField) + " (Custom)", content)]
      && t.editing.value !in u.custom
      && AllStyles(u) == AllStyles(t) + (if id in t.deleted then [] else [StyleEntry(id, Trim(nameField) + " (Custom)")])
  {
    var id := EditedCopyId(t.editing.value, now);
    assert id != t.editing.value by {
      assert |id| > |t.editing.value|;
    }
    var u := SaveSpec(t, nameField, content, now);
    assert u.ids[..|u.ids| - 1] == t.ids;
    CustomEntriesAppendNew(t.ids, t.custom, id, CustomStyle(Trim(nameField) + " (Custom)", content));
    VisibleAppend(BuiltInStyles + CustomEntries(t.ids, t.custom), [StyleEntry(id, Trim(nameField) + " (Custom)")], t.deleted);
    assert BuiltInStyles + CustomEntries(u.ids, u.custom)
      == BuiltInStyles + CustomEntries(t.ids, t.custom) + [StyleEntry(id, Trim(nameField) + " (Custom)")];
    assert [StyleEntry(id, Trim(nameField) + " (Custom)")][..0] == [];
  }

  /** A new key's entry goes last; the earlier entries do not change. */
  lemma CustomEntriesAppendNew(ids: seq<string>, custom: map<string, CustomStyle>, id: string, style: CustomStyle)
    requires id !in ids
    ensures CustomEntries(ids + [id], custom[id := style]) == CustomEntries(ids, custom) + [StyleEntry(id, style.name)]
  {
    assert (ids + [id])[..|ids|] == ids;
    CustomEntriesIgnoresOthers(ids, custom, id, style);
  }

  lemma {:induction false} CustomEntriesIgnoresOthers(ids: seq<string>, custom: map<string, CustomStyle>, id: string, style: CustomStyle)
    requires id !in ids
    ensures CustomEntries(ids, custom[id := style]) == CustomEntries(ids, custom)
    decreases |ids|
  {
    if ids != [] {
      CustomEntriesIgnoresOthers(ids[..|ids| - 1], custom, id, style);
    }
  }

  /** Deleting a confirmed custom style drops it from the list and clears
      the selection. */
  lemma DeleteCustomRemoves(t: Table)
    requires WellFormed(t) && Selected(t.editing) && t.editing.value in t.custom
    ensures var u := DeleteSpec(t, true);
      && t.editing.value !in u.custom && u.editing == None && u.deleted == t.deleted
      && (forall e :: e in AllStyles(u) && e.id == t.editing.value ==> e in BuiltInStyles)
      && u.custom == t.custom - {t.editing.value} && u.cache == t.cache
      && u.ids == Without(t.ids, t.editing.value) && |u.ids| == |t.ids| - 1
  {
    AllStylesShape(DeleteSpec(t, true));
    RemoveShortens(t.ids, t.editing.value);
  }

  /** A key listed once is removed from exactly one place. */
  lemma RemoveShortens(ids: seq<string>, id: string)
    requires NoDuplicates(ids) && id in ids
    ensures |Without(ids, id)| == |ids| - 1
  {
    var k :| 0 <= k < |ids| && ids[k] == id;
    assert ids == ids[..k] + [id] + ids[k + 1..];
    WithoutSplit(ids, ids[..k], ids[k + 1..], id);
  }

  /** Deleting a confirmed built-in style hides it: its id is appended to
      the hidden list (again, if already there) and no listed entry has it. */
  lemma DeleteBuiltInHides(t: Table)
    requires WellFormed(t) && Selected(t.editing) && t.editing.value !in t.custom
    ensures var u := DeleteSpec(t, true);
      && u.deleted == t.deleted + [t.editing.value] && u.custom == t.custom && u.editing == None
      && (forall e :: e in AllStyles(u) ==> e.id != t.editing.value)
  {
    AllStylesShape(DeleteSpec(t, true));
  }

  /** Nothing happens without a selection or without confirmation. */
  lemma DeleteNeedsConfirmation(t: Table)
    ensures DeleteSpec(t, false) == t
    ensures !Selected(t.editing) ==> DeleteSpec(t, true) == t
  {
  }

  // ---------------------------------------------------------------------
  // The template creator (index.js 984-1094)
  // ---------------------------------------------------------------------

  /** The style checkboxes of the easy form, in the order they are read. */
  datatype StyleFlags = StyleFlags(emoji: bool, slang: bool, lowercase: bool, typos: bool,
                                   allCaps: bool, hashtags: bool, mentions: bool, formal: bool)

  /** The creator's two tabs; text fields as typed, before trimming. */
  datatype TemplateForm =
    | Advanced(advName: string, advPrompt: string)
    | Easy(name: string, kind: string, format: string, identity: string, personality: string,
           tone: string, customTone: string, length: string, interact: bool, flags: StyleFlags)

  const DefaultStyleName: string := "Custom Style"
  const DefaultFormat: string := "username: message"
  const DefaultTone: string := "varied and natural"

  const ToneDescriptions: map<string, string> := map[
    "chaotic" := "chaotic, energetic, and excitable",
    "calm" := "calm, thoughtful, and reflective",
    "sarcastic" := "sarcastic, witty, and playfully mocking",
    "wholesome" := "wholesome, supportive, and kind",
    "cynical" := "cynical, tired, and darkly humorous",
    "explicit" := "explicit, unfiltered, and provocative"
  ]

  const LengthDescriptions: map<string, string> := map[
    "short" := "1-2 sentences maximum",
    "medium" := "2-3 complete sentences",
    "long" := "1-3 paragraphs with 3-5 sentences each"
  ]

  const ElementTexts: seq<string> := [
    "use emojis", "use internet slang", "prefer lowercase", "include occasional typos",
    "occasional ALL CAPS for emphasis", "include hashtags", "use @mentions between users",
    "use proper grammar and punctuation"
  ]

  const UsernamesSection: string :=
    "USERNAMES: Generate NEW random usernames each time. Make them creative, varied, and contextually appropriate.\n\n"
  const InteractionsText: string :=
    "INTERACTIONS: Users may respond to each other, agree, disagree, or build on previous comments"
  const InteractionsSection: string := InteractionsText + ".\n"

  /** `field.trim() || fallback`. */
  function OrDefault(field: string, fallback: string): (r: string)
    ensures Trim(field) != "" ==> r == Trim(field)
    ensures Trim(field) == "" ==> r == fallback
  {
    if Trim(field) != "" then Trim(field) else fallback
  }

  /** A custom tone is used only when 'custom' is selected and the custom
      field is not blank; otherwise the description of a known tone, or
      'varied and natural'. */
  function ToneDescription(select: string, customTone: string): (r: string)
    ensures select == "custom" && Trim(customTone) != "" ==> r == Trim(customTone)
    ensures select != "custom" && select in ToneDescriptions ==> r == ToneDescriptions[select]
    ensures select !in ToneDescriptions && !(select == "custom" && Trim(customTone) != "") ==> r == DefaultTone
  {
    if select == "custom" && Trim(customTone) != "" then Trim(customTone)
    else if select in ToneDescriptions then ToneDescriptions[select]
    else DefaultTone
  }

  /** `lengthDescriptions[length]` interpolated: an unknown key prints as
      "undefined". */
  function LengthDescription(length: string): (r: string)
    ensures length in LengthDescriptions ==> r == LengthDescriptions[length]
    ensures length !in LengthDescriptions ==> r == "undefined"
  {
    if length in LengthDescriptions then LengthDescriptions[length] else "undefined"
  }

  function FlagList(f: StyleFlags): (r: seq<bool>)
    ensures |r| == |ElementTexts|
  {
    [f.emoji, f.slang, f.lowercase, f.typos, f.allCaps, f.hashtags, f.mentions, f.formal]
  }

  /** The texts whose flag is set, in order. */
  function Picked(flags: seq<bool>, texts: seq<string>): (r: seq<string>)
    requires |flags| == |texts|
    ensures |r| <= |texts|
    ensures r == [] <==> forall k :: 0 <= k < |flags| ==> !flags[k]
    ensures forall x :: x in r ==> x in texts
    ensures |r| == Ticked(flags)
    ensures forall k :: 0 <= k < |flags| && flags[k] ==>
      Ticked(flags[..k]) < |r| && r[Ticked(flags[..k])] == texts[k]
    decreases |flags|
  {
    if flags == [] then []
    else
      var rest := Picked(flags[1..], texts[1..]);
      assert forall k :: 1 <= k < |flags| ==> flags[k] == flags[1..][k - 1];
      assert forall x :: x in texts[1..] ==> x in texts;
      assert forall k :: 1 <= k <= |flags| ==> flags[..k][1..] == flags[1..][..k - 1];
      (if flags[0] then [texts[0]] else []) + rest
  }

  /** The number of ticked boxes. */
  function Ticked(flags: seq<bool>): nat
    decreases |flags|
  {
    if flags == [] then 0 else (if flags[0] then 1 else 0) + Ticked(flags[1..])
  }

  /** `styleElements`, one text per checked box, in checkbox order. */
  function StyleElements(f: StyleFlags): seq<string> {
    Picked(FlagList(f), ElementTexts)
  }

  /** `parts.join(sep)` for a string separator. */
  function JoinWith(parts: seq<string>, sep: string): string
    decreases |parts|
  {
    if |parts| == 0 then ""
    else if |parts| == 1 then parts[0]
    else parts[0] + sep + JoinWith(parts[1..], sep)
  }

  /** What the prompt opens with: the identity and a blank line, when an
      identity is given, then the FORMAT label. */
  function Head(f: TemplateForm): string
    requires f.Easy?
  {
    if Trim(f.identity) != "" then Trim(f.identity) + "\n\nFORMAT: " else "FORMAT: "
  }

  /** The line break after the last section. */
  function FinalBreak(f: TemplateForm): string
    requires f.Easy?
  {
    if f.kind == "chat" && f.interact then "\n" else "\n\n"
  }

  /** The identity, FORMAT, USERNAMES, PERSONALITY and TONE sections. */
  function Opening(f: TemplateForm): (r: string)
    requires f.Easy?
    ensures StartsWith(r, Head(f))
  {
    var identity := Trim(f.identity);
    var personality := Trim(f.personality);
    var rest := OrDefault(f.format, DefaultFormat) + "\n\n"
      + (if f.kind == "chat" then UsernamesSection else "")
      + (if personality != "" then "PERSONALITY: " + personality + "\n\n" else "")
      + ("TONE: Messages should be " + ToneDescription(f.tone, f.customTone) + ".\n\n");
    var r := Head(f) + rest;
    assert r[..|Head(f)|] == Head(f);
    r
  }

  /** The LENGTH, STYLE and INTERACTIONS sections: each ends with a full stop
      and a line break. */
  function Closing(f: TemplateForm): string
    requires f.Easy?
  {
    var elements := StyleElements(f.flags);
    Sections(LengthDescription(f.length), JoinWith(elements, ", "), |elements| > 0, f.kind == "chat" && f.interact)
  }

  /** The closing sections with the length description `d` and the joined
      style elements `j`. */
  function Sections(d: string, j: string, styled: bool, interacts: bool): string {
    ("LENGTH: Each message should be " + d + ".\n\n")
      + (if styled then "STYLE: " + j + ".\n\n" else "")
      + (if interacts then InteractionsSection else "")
  }

  /** `r` ends with a full stop followed by `tail`. */
  predicate EndsAfterStop(r: string, tail: string) {
    |r| > |tail| && r[|r| - |tail|..] == tail && r[|r| - |tail| - 1] == '.'
  }

  lemma ClosingEnds(f: TemplateForm)
    requires f.Easy?
    ensures EndsAfterStop(Closing(f), FinalBreak(f))
  {
    var elements := StyleElements(f.flags);
    SectionsEnd(LengthDescription(f.length), JoinWith(elements, ", "), |elements| > 0, f.kind == "chat" && f.interact);
  }

  lemma SectionsEnd(d: string, j: string, styled: bool, interacts: bool)
    ensures EndsAfterStop(Sections(d, j, styled, interacts), if interacts then "\n" else "\n\n")
  {
    var lengthLine := "LENGTH: Each message should be " + d + ".\n\n";
    var styleLine := if styled then "STYLE: " + j + ".\n\n" else "";
    var last := if interacts then InteractionsSection else "";
    EndsWithSelf("LENGTH: Each message should be " + d, ".\n\n");
    if styled {
      EndsWithSelf("STYLE: " + j, ".\n\n");
      EndsWithAppend(lengthLine, styleLine, ".\n\n");
    } else {
      assert lengthLine + styleLine == lengthLine;
    }
    EndsWithSelf(InteractionsText, ".\n");
    PeriodBreakAfter(lengthLine, styleLine, last, if interacts then "\n" else "\n\n");
  }

  lemma EndsWithSelf(x: string, y: string)
    ensures EndsWith(x + y, y)
  {
    assert (x + y)[|x|..] == y;
  }

  lemma EndsWithAppend(x: string, y: string, suffix: string)
    requires EndsWith(y, suffix)
    ensures EndsWith(x + y, suffix)
  {
    assert (x + y)[|x + y| - |suffix|..] == y[|y| - |suffix|..];
  }

  /** Gluing sections keeps how the last non-empty one ends. */
  lemma PeriodBreakAfter(a: string, b: string, c: string, tail: string)
    requires tail == "\n" || tail == "\n\n"
    requires c != "" ==> EndsWith(c, "." + tail)
    requires c == "" ==> EndsWith(a + b, "." + tail)
    ensures EndsAfterStop(a + b + c, tail)
  {
    var r := a + b + c;
    var d := "." + tail;
    if c != "" {
      EndsWithAppend(a + b, c, d);
    } else {
      assert r == a + b;
    }
    assert r[|r| - |d|..] == d;
    assert r[|r| - |tail|..] == d[1..];
  }

  /** A text that opens with a non-whitespace character and ends with a full
      stop and one or two newlines trims to the text before the newlines. */
  lemma TrimFinalBreak(v: string, tail: string)
    requires tail == "\n" || tail == "\n\n"
    requires |v| > 0 && !IsWhitespace(v[0]) && v[|v| - 1] == '.'
    ensures Trim(v + tail) == v
  {
    var u := v + tail;
    TrimStartOfTrimmed(u);
    TrimEndOfTrimmed(v);
    if tail == "\n" {
      assert u[..|u| - 1] == v;
    } else {
      var w := v + "\n";
      assert u[..|u| - 1] == w;
      assert w[..|w| - 1] == v;
      assert TrimEnd(w) == TrimEnd(v);
      assert TrimEnd(u) == TrimEnd(w);
    }
  }

  /** An opening that starts with `head` (whose first character is not
      whitespace) followed by a closing that ends with a full stop and
      `tail`: trimming removes exactly `tail`. */
  lemma TrimSections(o: string, c: string, head: string, tail: string)
    requires tail == "\n" || tail == "\n\n"
    requires |head| > 0 && !IsWhitespace(head[0]) && StartsWith(o, head)
    requires EndsAfterStop(c, tail)
    ensures Trim(o + c) + tail == o + c
    ensures StartsWith(Trim(o + c), head)
  {
    var u := o + c;
    var v := u[..|u| - |tail|];
    assert u[|u| - |tail|..] == c[|c| - |tail|..];
    assert u == v + tail;
    assert v[|v| - 1] == c[|c| - |tail| - 1];
    assert u[..|head|] == o[..|head|];
    assert v[0] == u[0] == head[0];
    TrimFinalBreak(v, tail);
    assert v[..|head|] == u[..|head|];
  }

  /** The prompt of the easy form before the final `trim()`. */
  function TemplateText(f: TemplateForm): string
    requires f.Easy?
  {
    Opening(f) + Closing(f)
  }

  /** The prompt built from the easy form (index.js 1033-1071). */
  function TemplatePrompt(f: TemplateForm): string
    requires f.Easy?
  {
    Trim(TemplateText(f))
  }

  /** The final `trim()` removes only the line break after the last
      section: the prompt opens with the identity, when given, or with the
      FORMAT line, and nothing inside is touched. */
  lemma TemplateTrimDropsFinalBreak(f: TemplateForm)
    requires f.Easy?
    ensures TemplatePrompt(f) + FinalBreak(f) == TemplateText(f)
    ensures StartsWith(TemplatePrompt(f), Head(f))
  {
    ClosingEnds(f);
    HeadStartsClean(f);
    TrimSections(Opening(f), Closing(f), Head(f), FinalBreak(f));
  }

  /** The head opens with a character that is not whitespace. */
  lemma HeadStartsClean(f: TemplateForm)
    requires f.Easy?
    ensures |Head(f)| > 0 && !IsWhitespace(Head(f)[0])
  {
    var identity := Trim(f.identity);
    if identity != "" {
      TrimIsTrimmed(f.identity);
      assert Head(f)[0] == identity[0];
    } else {
      assert Head(f)[0] == 'F';
    }
  }

  /** The name and prompt the creator would store, or None when the
      advanced prompt is blank. */
  function TemplateStyle(f: TemplateForm): (r: Option<CustomStyle>)
    ensures f.Easy? ==> r.Some?
    ensures f.Advanced? ==> (r.None? <==> Trim(f.advPrompt) == "")
    ensures r.Some? ==> r.value.name != "" && r.value.prompt != ""
    ensures r.Some? ==> IsTrimmed(r.value.prompt)
    ensures r.Some? && f.Advanced? ==> r.value.prompt == Trim(f.advPrompt)
    ensures r.Some? && f.Easy? ==> StartsWith(r.value.prompt, Head(f))
  {
    match f
    case Advanced(n, p) =>
      TrimIsTrimmed(p);
      if Trim(p) == "" then None else Some(CustomStyle(OrDefault(n, DefaultStyleName), Trim(p)))
    case Easy(n, _, _, _, _, _, _, _, _, _) =>
      TrimIsTrimmed(TemplateText(f));
      assert TemplatePrompt(f) != "" && StartsWith(TemplatePrompt(f), Head(f)) by { TemplateTrimDropsFinalBreak(f); }
      Some(CustomStyle(OrDefault(n, DefaultStyleName), TemplatePrompt(f)))
  }

  function CreatedId(now: nat): string {
    "custom_" + NatToString(now)
  }

  /** `createStyleFromTemplate` (index.js 984-1094): store the style under
      "custom_<now>" and select it. */
  function CreateSpec(t: Table, f: TemplateForm, now: nat): Table {
    match TemplateStyle(f)
    case None => t
    case Some(style) => Put(t, CreatedId(now), style).(editing := Some(CreatedId(now)))
  }

  lemma CreateWellFormed(t: Table, f: TemplateForm, now: nat)
    requires WellFormed(t)
    ensures WellFormed(CreateSpec(t, f, now))
  {
    match TemplateStyle(f)
    case None =>
    case Some(style) => PutWellFormed(t, CreatedId(now), style);
  }

  /** A blank advanced prompt changes nothing; otherwise the new style is
      stored, listed last and selected. */
  lemma CreateAddsStyle(t: Table, f: TemplateForm, now: nat)
    requires WellFormed(t) && CreatedId(now) !in t.custom
    ensures f.Advanced? && Trim(f.advPrompt) == "" ==> CreateSpec(t, f, now) == t
    ensures TemplateStyle(f).Some? ==> var u := CreateSpec(t, f, now);
      && u.ids == t.ids + [CreatedId(now)] && u.editing == Some(CreatedId(now))
      && u.custom == t.custom[CreatedId(now) := TemplateStyle(f).value]
  {
    var made := TemplateStyle(f);
    if made.Some? {
      assert CreateSpec(t, f, now) == Put(t, CreatedId(now), made.value).(editing := Some(CreatedId(now)));
    } else if f.Advanced? {
      assert CreateSpec(t, f, now) == t;
    }
  }

  // ---------------------------------------------------------------------
  // File names: export (index.js 1185) and import (index.js 1671-1675)
  // ---------------------------------------------------------------------

  /** `toLowerCase().replace(/[^a-z0-9]/g, '_')`, with ASCII case folding. */
  function SanitizeId(s: string): (r: string)
    ensures |r| == |s|
    ensures forall i :: 0 <= i < |r| ==> IsAsciiLower(r[i]) || IsDigit(r[i]) || r[i] == '_'
    ensures forall i :: 0 <= i < |s| ==> r[i] == SanitizeChar(s[i])
    decreases |s|
  {
    if s == [] then [] else [SanitizeChar(s[0])] + SanitizeId(s[1..])
  }

  function SanitizeChar(c: char): (r: char)
    ensures IsAsciiLower(r) || IsDigit(r) || r == '_'
    ensures (IsAsciiLower(c) || IsDigit(c)) ==> r == c
    ensures IsAsciiUpper(c) ==> r == LowerChar(c)
    ensures !IsAsciiLower(c) && !IsDigit(c) && !IsAsciiUpper(c) ==> r == '_'
  {
    var l := LowerChar(c);
    if IsAsciiLower(l) || IsDigit(l) then l else '_'
  }

  /** Sanitising twice changes nothing more. */
  lemma SanitizeIdempotent(s: string)
    ensures SanitizeId(SanitizeId(s)) == SanitizeId(s)
  {
  }

  /** The download name of an export: the name field, or the style id when
      the field is empty, sanitised, plus ".md"; nothing without an id. */
  function ExportFileName(nameField: string, styleId: string): (r: Option<string>)
    ensures r.Some? <==> styleId != ""
    ensures r.Some? ==> EndsWith(r.value, ".md")
    ensures r.Some? ==> var source := if nameField != "" then nameField else styleId;
      && |r.value| == |source| + 3
      && forall i :: 0 <= i < |source| ==> r.value[i] == SanitizeChar(source[i])
  {
    if styleId == "" then None
    else Some(SanitizeId(if nameField != "" then nameField else styleId) + ".md")
  }

  /** The name ends in ".md" in some letter case. */
  predicate MdSuffix(s: string) {
    |s| >= 3 && s[|s| - 3] == '.' && s[|s| - 2] in {'m', 'M'} && s[|s| - 1] in {'d', 'D'}
  }

  /** `name.replace(/\.md$/i, '')`. */
  function StripMdSuffix(fileName: string): (r: string)
    ensures |r| <= |fileName| && r == fileName[..|r|]
    ensures MdSuffix(fileName) ==> r == fileName[..|fileName| - 3]
    ensures !MdSuffix(fileName) ==> r == fileName
  {
    var n := |fileName|;
    if n >= 3 && fileName[n - 3] == '.' && LowerChar(fileName[n - 2]) == 'm' && LowerChar(fileName[n - 1]) == 'd'
    then fileName[..n - 3] else fileName
  }

  /** The id an imported file gets. */
  function ImportedId(fileName: string, now: nat): string {
    "custom_" + SanitizeId(StripMdSuffix(fileName)) + "_" + NatToString(now)
  }

  /** Importing stores the file's text under its name without the ".md"
      suffix. */
  function ImportSpec(t: Table, fileName: string, content: string, now: nat): Table {
    Put(t, ImportedId(fileName, now), CustomStyle(StripMdSuffix(fileName), content))
  }

  lemma ImportWellFormed(t: Table, fileName: string, content: string, now: nat)
    requires WellFormed(t)
    ensures WellFormed(ImportSpec(t, fileName, content, now))
  {
  }

  /** An exported file imported again is named by the sanitised export name,
      and its id embeds that same text. */
  lemma ExportImportRoundTrip(nameField: string, styleId: string, now: nat)
    requires styleId != ""
    ensures var file := ExportFileName(nameField, styleId).value;
      var base := SanitizeId(if nameField != "" then nameField else styleId);
      && StripMdSuffix(file) == base
      && ImportedId(file, now) == "custom_" + base + "_" + NatToString(now)
  {
    var base := SanitizeId(if nameField != "" then nameField else styleId);
    var file := base + ".md";
    assert file[..|file| - 3] == base;
    SanitizeIdempotent(if nameField != "" then nameField else styleId);
  }

  /** The suffix is matched without regard to its letter case, and only at
      the end. */
  lemma StripMdSuffixExamples()
    ensures StripMdSuffix("Pirates.MD") == "Pirates"
    ensures StripMdSuffix("notes.md.txt") == "notes.md.txt"
  {
    assert "Pirates.MD"[..7] == "Pirates";
  }

  // ---------------------------------------------------------------------
  // The table held in place
  // ---------------------------------------------------------------------

  /** `settings.custom_styles`, `settings.deleted_styles`, `promptCache` and
      `currentEditingStyle`, updated in place by the editor. */
  class StyleStore {
    var ids: seq<string>
    var custom: map<string, CustomStyle>
    var deleted: seq<string>
    var cache: map<string, string>
    var editing: Option<string>

    function State(): Table
      reads this
    {
      Table(ids, custom, deleted, cache, editing)
    }

    constructor ()
      ensures State() == EmptyTable
    {
      ids, custom, deleted, cache, editing := [], map[], [], map[], None;
    }

    function AllStylesNow(): seq<StyleEntry>
      reads this
    {
      AllStyles(State())
    }

    method PutStyle(id: string, style: CustomStyle)
      modifies this
      ensures State() == Put(old(State()), id, style)
    {
      if id !in custom {
        ids := ids + [id];
      }
      custom := custom[id := style];
    }

    method LoadChatStyle(style: string, fetchFile: string -> Option<string>) returns (prompt: string)
      modifies this
      ensures prompt == ChatStylePrompt(old(State()), style, fetchFile)
      ensures State() == LoadState(old(State()), style, fetchFile)
    {
      if style in custom {
        return custom[style].prompt;
      }
      if style in cache && cache[style] != "" {
        return cache[style];
      }
      var filename := StyleFile(style);
      var fetched := fetchFile(filename);
      match fetched
      case Some(content) =>
        cache := cache[style := content];
        prompt := content;
      case None =>
        prompt := FallbackStylePrompt;
    }

    method SelectInEditor(styleId: string, fetchFile: string -> Option<string>) returns (content: string)
      modifies this
      ensures content == ChatStylePrompt(old(State()), styleId, fetchFile)
      ensures State() == SelectSpec(old(State()), styleId, fetchFile)
    {
      editing := Some(styleId);
      if styleId in custom {
        content := custom[styleId].prompt;
      } else {
        content := LoadChatStyle(styleId, fetchFile);
      }
    }

    method SaveFromEditor(nameField: string, content: string, now: nat)
      modifies this
      ensures State() == SaveSpec(old(State()), nameField, content, now)
    {
      if !Selected(editing) {
        return;
      }
      var name := Trim(nameField);
      if name == "" {
        return;
      }
      var current := editing.value;
      if current in custom {
        custom := custom[current := CustomStyle(name, content)];
      } else {
        var id := EditedCopyId(current, now);
        PutStyle(id, CustomStyle(name + " (Custom)", content));
        editing := Some(id);
      }
    }

    method DeleteFromEditor(confirmed: bool)
      modifies this
      ensures State() == DeleteSpec(old(State()), confirmed)
    {
      if !Selected(editing) {
        return;
      }
      var current := editing.value;
      if current in custom {
        if !confirmed {
          return;
        }
        custom := custom - {current};
        ids := Without(ids, current);
      } else {
        if !confirmed {
          return;
        }
        deleted := deleted + [current];
      }
      editing := None;
    }

    /** The new style is selected as `selectStyleInEditor` selects it; being
        custom, it is found without a fetch. */
    method CreateFromTemplate(f: TemplateForm, now: nat, fetchFile: string -> Option<string>)
      modifies this
      ensures State() == CreateSpec(old(State()), f, now)
    {
      var style := TemplateStyle(f);
      if style.None? {
        return;
      }
      var id := CreatedId(now);
      PutStyle(id, style.value);
      var _ := SelectInEditor(id, fetchFile);
    }

    method ImportStyle(fileName: string, content: string, now: nat)
      modifies this
      ensures State() == ImportSpec(old(State()), fileName, content, now)
    {
      var name := StripMdSuffix(fileName);
      var id := "custom_" + SanitizeId(name) + "_" + NatToString(now);
      PutStyle(id, CustomStyle(name, content));
    }
  }
}
