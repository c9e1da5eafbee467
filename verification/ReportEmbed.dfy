/** The embed budget of app/cases/handlers.py: every selected field gets room
    within the transport's total limit. */
module ReportEmbed {
  import opened Types

  const DASH: char := '\U{2014}'
  const ELLIPSIS: char := '\U{2026}'

  const MAX_FIELDS := 10

  datatype Field = Field(name: string, value: string)

  /** Empty text is shown as a dash. */
  function Shown(text: string, fallback: string): (s: string)
    requires fallback != ""
    ensures s != ""
  {
    if text == "" then fallback else text
  }

  /** Clipping keeps short text as it is and otherwise a prefix marked as cut. */
  function Clip(text: string, limit: int): (s: string)
    requires limit >= 1
    ensures s != "" && |s| == Min(|Shown(text, [DASH])|, limit)
  {
    var t := Shown(text, [DASH]);
    if |t| <= limit then t else t[..limit - 1] + [ELLIPSIS]
  }

  function Length(fields: seq<Field>): nat {
    if fields == [] then 0
    else Length(fields[..|fields| - 1]) + |fields[|fields| - 1].name| + |fields[|fields| - 1].value|
  }

  /** Clipping keeps short text whole, cuts long text to a marked prefix, and a
      clipped text is the clip of the original to its own length. */
  lemma ClipKeepsPrefix(text: string, limit: int)
    requires limit >= 1 && text != ""
    ensures |text| <= limit ==> Clip(text, limit) == text
    ensures |text| > limit ==> Clip(text, limit) == text[..limit - 1] + [ELLIPSIS]
    ensures Clip(text, |Clip(text, limit)|) == Clip(text, limit)
  {
  }

  /** Empty text is shown as a dash, and a field without a name as "Details". */
  lemma EmptyIsShown(limit: int, allowance: int)
    requires limit >= 1 && allowance >= 364
    ensures Clip("", limit) == ['\U{2014}'] && BudgetField(Field("", ""), allowance) == Field("Details", ['\U{2014}'])
    ensures Clip("ab", 1) == ['\U{2026}']
  {
  }

  /** What a budgeted field keeps of the field it came from: each part is the
      original cut to some length of at least min(own length, 182). */
  ghost predicate Keeps(kept: Field, original: Field) {
    && kept.name != "" && kept.value != ""
    && |kept.name| >= Min(|Shown(original.name, "Details")|, 182)
    && |kept.value| >= Min(|Shown(original.value, [DASH])|, 182)
    && kept.name == Clip(Shown(original.name, "Details"), |kept.name|)
    && kept.value == Clip(Shown(original.value, [DASH]), |kept.value|)
  }

  lemma ProductMonotone(a: int, b: int, c: int)
    requires a <= b && c >= 0
    ensures a * c <= b * c
  {
  }

  lemma DivMod(n: int, d: int)
    requires d > 0
    ensures n == (n / d) * d + n % d && 0 <= n % d < d
  {
  }

  lemma ShareIsLarge(remaining: int, left: int)
    requires left >= 1 && remaining >= 364 * left
    ensures remaining / left >= 364
  {
    var share := remaining / left;
    DivMod(remaining, left);
    if share < 364 {
      ProductMonotone(share, 363, left);
    }
  }

  /** An equal share of the remaining budget leaves every later field its share. */
  lemma ShareLeavesRoom(remaining: int, left: int, used: int)
    requires left >= 1 && remaining >= 364 * left
    requires used <= remaining / left
    ensures remaining - used >= 364 * (left - 1) >= 0
  {
    var share := remaining / left;
    ShareIsLarge(remaining, left);
    DivMod(remaining, left);
    ProductMonotone(364, share, left - 1);
    assert share * left == share * (left - 1) + share;
  }

  /** One field clipped into its allowance: the name takes at most half of it. */
  function BudgetField(original: Field, allowance: int): (kept: Field)
    requires allowance >= 364
    ensures |kept.name| + |kept.value| <= allowance
    ensures Keeps(kept, original)
  {
    var name := Clip(Shown(original.name, "Details"), Min(256, allowance / 2));
    var value := Clip(Shown(original.value, [DASH]), Min(1024, allowance - |name|));
    ClipKeepsPrefix(Shown(original.name, "Details"), Min(256, allowance / 2));
    ClipKeepsPrefix(Shown(original.value, [DASH]), Min(1024, allowance - |name|));
    Field(name, value)
  }

  ghost predicate AllKept(budgeted: seq<Field>, selected: seq<Field>) {
    |budgeted| <= |selected| && forall i :: 0 <= i < |budgeted| ==> Keeps(budgeted[i], selected[i])
  }

  /** A field cut to a share: its name takes at most half of it and 256 characters, its
      value the rest and at most 1024. */
  predicate CutTo(kept: Field, original: Field, share: int) {
    && share >= 364 && |kept.name| <= 256 && |kept.value| <= 1024
    && kept.name == Clip(Shown(original.name, "Details"), Min(256, share / 2))
    && kept.value == Clip(Shown(original.value, [DASH]), Min(1024, share - |kept.name|))
  }

  lemma FieldIsCut(original: Field, share: int)
    requires share >= 364
    ensures CutTo(BudgetField(original, share), original, share)
  {
  }

  /** Whether a field takes an equal part of what the ones before it left. */
  ghost predicate TakesPart(selected: seq<Field>, available: int, before: seq<Field>, kept: Field) {
    && |before| < |selected|
    && exists share :: IsShare(share, available - Length(before), |selected| - |before|)
         && CutTo(kept, selected[|before|], share)
  }

  predicate IsShare(share: int, remaining: int, left: int) {
    left >= 1 && share == remaining / left
  }

  ghost function TakesShare(selected: seq<Field>, available: int): (seq<Field>, Field) -> bool {
    (before: seq<Field>, kept: Field) => TakesPart(selected, available, before, kept)
  }

  predicate Successively(takes: (seq<Field>, Field) -> bool, fields: seq<Field>) {
    forall i :: 0 <= i < |fields| ==> takes(fields[..i], fields[i])
  }

  lemma OneMoreTakes(takes: (seq<Field>, Field) -> bool, fields: seq<Field>, f: Field)
    requires Successively(takes, fields) && takes(fields, f)
    ensures Successively(takes, fields + [f])
  {
    var longer := fields + [f];
    forall i | 0 <= i < |longer| ensures takes(longer[..i], longer[i]) {
      if i < |fields| {
        assert longer[..i] == fields[..i] && longer[i] == fields[i];
      } else {
        assert longer[..i] == fields;
      }
    }
  }

  lemma LengthOneMore(budgeted: seq<Field>, kept: Field)
    ensures Length(budgeted + [kept]) == Length(budgeted) + |kept.name| + |kept.value|
  {
    assert (budgeted + [kept])[..|budgeted|] == budgeted;
  }

  lemma KeepOneMore(budgeted: seq<Field>, kept: Field, selected: seq<Field>)
    requires AllKept(budgeted, selected) && |budgeted| < |selected| && Keeps(kept, selected[|budgeted|])
    ensures AllKept(budgeted + [kept], selected)
  {
    var longer := budgeted + [kept];
    forall i | 0 <= i < |longer|
      ensures Keeps(longer[i], selected[i])
    {
      assert longer[i] == if i < |budgeted| then budgeted[i] else kept;
    }
  }

  /** The loop of the source: each field takes its share of what is left. */
  method BudgetFields(selected: seq<Field>, available: int) returns (budgeted: seq<Field>)
    requires available >= 364 * |selected|
    ensures |budgeted| == |selected| && AllKept(budgeted, selected)
    ensures Length(budgeted) <= available && Successively(TakesShare(selected, available), budgeted)
  {
    var remaining := available;
    budgeted := [];
    ghost var takes := TakesShare(selected, available);
    for index := 0 to |selected|
      invariant |budgeted| == index && AllKept(budgeted, selected) && Successively(takes, budgeted)
      invariant remaining >= 364 * (|selected| - index) && remaining + Length(budgeted) == available
    {
      var kept := TakeShare(selected, budgeted, remaining, available);
      assert takes(budgeted, kept);
      KeepOneMore(budgeted, kept, selected);
      OneMoreTakes(takes, budgeted, kept);
      LengthOneMore(budgeted, kept);
      budgeted := budgeted + [kept];
      remaining := remaining - (|kept.name| + |kept.value|);
    }
  }

  method TakeShare(selected: seq<Field>, budgeted: seq<Field>, remaining: int, ghost available: int)
    returns (kept: Field)
    requires |budgeted| < |selected| && remaining == available - Length(budgeted)
    requires remaining >= 364 * (|selected| - |budgeted|)
    ensures Keeps(kept, selected[|budgeted|]) && TakesPart(selected, available, budgeted, kept)
    ensures remaining - (|kept.name| + |kept.value|) >= 364 * (|selected| - |budgeted| - 1)
  {
    var share;
    ghost var rest;
    share, rest := ShareOf(remaining, |selected| - |budgeted|, available - Length(budgeted));
    kept := CutField(selected[|budgeted|], share);
    TakesIt(selected, budgeted, available, kept, share);
  }

  method CutField(original: Field, share: int) returns (kept: Field)
    requires share >= 364
    ensures Keeps(kept, original) && CutTo(kept, original, share) && |kept.name| + |kept.value| <= share
  {
    FieldIsCut(original, share);
    kept := BudgetField(original, share);
  }

  method ShareOf(remaining: int, left: int, ghost whole: int) returns (share: int, ghost rest: int)
    requires left >= 1 && remaining >= 364 * left && remaining == whole
    ensures share >= 364 && IsShare(share, whole, left)
    ensures rest == remaining - share && rest >= 364 * (left - 1)
  {
    ShareIsLarge(remaining, left);
    share := remaining / left;
    ShareLeavesRoom(remaining, left, share);
    rest := remaining - share;
  }

  lemma TakesIt(selected: seq<Field>, budgeted: seq<Field>, available: int, kept: Field, share: int)
    requires |budgeted| < |selected|
    requires IsShare(share, available - Length(budgeted), |selected| - |budgeted|)
             && CutTo(kept, selected[|budgeted|], share)
    ensures TakesPart(selected, available, budgeted, kept)
  {
  }

  /** The embed shows the first ten fields. */
  function Selected(fields: seq<Field>): seq<Field> {
    if |fields| <= MAX_FIELDS then fields else fields[..MAX_FIELDS]
  }

  lemma FirstKept(budgeted: seq<Field>, fields: seq<Field>)
    requires AllKept(budgeted, Selected(fields))
    ensures forall i :: 0 <= i < |budgeted| ==> Keeps(budgeted[i], fields[i])
  {
    forall i | 0 <= i < |budgeted| ensures Keeps(budgeted[i], fields[i]) {
      assert Keeps(budgeted[i], Selected(fields)[i]) && Selected(fields)[i] == fields[i];
    }
  }

  /** The title and the description come first, and leave the fields their room. */
  method ClipHead(title: string, description: string) returns (shownTitle: string, shownDescription: string, room: int)
    ensures shownTitle == Clip(title, 256) && shownDescription == Clip(description, 2002)
    ensures room == 5900 - |shownTitle| - |shownDescription| && room >= 3640
  {
    shownTitle := Clip(title, 256);
    shownDescription := Clip(description, 2002);
    room := 5900 - |shownTitle| - |shownDescription|;
  }

  method BudgetFirst(fields: seq<Field>, room: int) returns (budgeted: seq<Field>)
    requires room >= 3640
    ensures Length(budgeted) <= room && |budgeted| == Min(|fields|, 10)
    ensures forall i :: 0 <= i < |budgeted| ==> Keeps(budgeted[i], fields[i])
    ensures Successively(TakesShare(Selected(fields), room), budgeted)
  {
    budgeted := BudgetFields(Selected(fields), room);
    FirstKept(budgeted, fields);
  }

  /** For any title, description and fields the embed stays within the total,
      keeps the first ten fields, and shows at least min(own length, 182)
      characters of each name and value, each in an equal share of what is left. */
  method BudgetReportEmbed(title: string, description: string, fields: seq<Field>)
    returns (shownTitle: string, shownDescription: string, budgeted: seq<Field>)
    ensures shownTitle == Clip(title, 256) && shownDescription == Clip(description, 2002)
    ensures |shownTitle| + |shownDescription| + Length(budgeted) <= 5900
    ensures |budgeted| == Min(|fields|, 10)
    ensures forall i :: 0 <= i < |budgeted| ==> Keeps(budgeted[i], fields[i])
    ensures Successively(TakesShare(Selected(fields), 5900 - |shownTitle| - |shownDescription|), budgeted)
  {
    var room;
    shownTitle, shownDescription, room := ClipHead(title, description);
    budgeted := BudgetFirst(fields, room);
  }
}
