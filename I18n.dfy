/**
 * Translation lookup: `t(key, lang)` walks a dotted key through the nested
 * tables of `translations`, falling back to English and then to the key itself;
 * plus the stored-language default and the time-of-day greeting.
 */
module I18n {
  import opened Wrappers
  import opened TranslationTable

  // ---------------------------------------------------------------------------
  // Splitting a key at its dots
  // ---------------------------------------------------------------------------

  /** `s.split('.')`: the pieces between the dots, in order; never empty. */
  function Split(s: string): (r: seq<string>)
    ensures |r| >= 1
    ensures forall i :: 0 <= i < |r| ==> '.' !in r[i]
  {
    if s == [] then [""]
    else
      var rest := Split(s[1..]);
      if s[0] == '.' then [""] + rest
      else [[s[0]] + rest[0]] + rest[1..]
  }

  /** `parts.join('.')`. */
  function Join(parts: seq<string>): string
    requires |parts| >= 1
  {
    if |parts| == 1 then parts[0] else parts[0] + "." + Join(parts[1..])
  }

  /** Joining the pieces again gives back the key. */
  lemma {:induction false} JoinSplit(s: string)
    ensures Join(Split(s)) == s
  {
    if s != [] {
      JoinSplit(s[1..]);
      var rest := Split(s[1..]);
      if s[0] == '.' {
        assert Split(s) == [""] + rest;
        assert ([""] + rest)[1..] == rest;
      } else {
        var r := Split(s);
        assert r == [[s[0]] + rest[0]] + rest[1..];
        if |rest| == 1 {
          assert Join(r) == [s[0]] + rest[0];
        } else {
          assert r[1..] == rest[1..];
          assert Join(r) == ([s[0]] + rest[0]) + "." + Join(rest[1..]);
          assert Join(rest) == rest[0] + "." + Join(rest[1..]);
        }
        assert s == [s[0]] + s[1..];
      }
    }
  }

  lemma {:induction false} SplitWithoutDot(a: string)
    requires '.' !in a
    ensures Split(a) == [a]
  {
    if a != [] {
      SplitWithoutDot(a[1..]);
      assert [a[0]] + a[1..] == a;
    }
  }

  lemma {:induction false} SplitAtDot(a: string, b: string)
    requires '.' !in a
    ensures Split(a + "." + b) == [a] + Split(b)
  {
    var s := a + "." + b;
    if a == [] {
      assert s[1..] == b;
    } else {
      assert s[1..] == a[1..] + "." + b;
      SplitAtDot(a[1..], b);
      assert [a[0]] + a[1..] == a;
    }
  }

  /** Splitting dot-free pieces joined with dots gives back the pieces. */
  lemma {:induction false} SplitJoin(parts: seq<string>)
    requires |parts| >= 1
    requires forall i :: 0 <= i < |parts| ==> '.' !in parts[i]
    ensures Split(Join(parts)) == parts
  {
    if |parts| == 1 {
      SplitWithoutDot(parts[0]);
    } else {
      SplitJoin(parts[1..]);
      SplitAtDot(parts[0], Join(parts[1..]));
      assert [parts[0]] + parts[1..] == parts;
    }
  }

  // ---------------------------------------------------------------------------
  // Walking the tables
  // ---------------------------------------------------------------------------

  /** The property lookup of the table's objects: `node[k]`, None when undefined.
      The program's own is `TranslationTable.Property`; the walk is stated for any. */
  type Props = (Node, string) -> Option<Value>

  /** `v[k]`. A string has no properties here. */
  function Step(props: Props, v: Value, k: string): Option<Value> {
    match v
    case Text(_) => None
    case Object(node) => props(node, k)
  }

  /** Follows `keys` from `v` one property at a time; None as soon as one is undefined. */
  function Walk(props: Props, v: Value, keys: seq<string>): Option<Value>
    decreases |keys|
  {
    if keys == [] then Some(v)
    else
      match Step(props, v, keys[0])
      case None => None
      case Some(w) => Walk(props, w, keys[1..])
  }

  /** A walk of two pieces is two steps. */
  lemma WalkTwo(props: Props, v: Value, a: string, b: string)
    ensures Walk(props, v, [a, b]) ==
      match Step(props, v, a)
      case None => None
      case Some(w) => Step(props, w, b)
  {
    assert [a, b][1..] == [b];
    match Step(props, v, a)
    case None =>
    case Some(w) =>
      assert [b][1..] == [];
      assert Walk(props, w, [b]) == Step(props, w, b) by {
        match Step(props, w, b)
        case None =>
        case Some(x) => assert Walk(props, x, []) == Some(x);
      }
  }

  /** `found || key`: an undefined property or an empty string gives the key. */
  function OrKey(found: Option<Value>, key: string): Value {
    match found
    case None => Text(key)
    case Some(v) => if v == Text("") then Text(key) else v
  }

  /** The fallback loop of `t`: `result = result[k2] || key` for each piece in turn. */
  function FallbackWalk(props: Props, v: Value, keys: seq<string>, key: string): Value
    decreases |keys|
  {
    if keys == [] then v else FallbackWalk(props, OrKey(Step(props, v, keys[0]), key), keys[1..], key)
  }

  /** `translations[lang] || translations.en`. */
  function LanguageStart(lang: string): Value {
    LanguageTable(lang).GetOr(Object(Root(En)))
  }

  /** What `t(key, lang)` returns. */
  function Translation(props: Props, key: string, lang: string): Value {
    var keys := Split(key);
    match Walk(props, LanguageStart(lang), keys)
    case Some(v) => v
    case None => FallbackWalk(props, Object(Root(En)), keys, key)
  }

  /** `t(key, lang)`: walk the language's table; on the first undefined piece start
      over in English, where a missing piece (or an empty string) gives the key. */
  method Translate(props: Props, key: string, lang: string) returns (r: Value)
    ensures r == Translation(props, key, lang)
  {
    var keys := Split(key);
    r := LanguageStart(lang);
    var i := 0;
    while i < |keys|
      invariant 0 <= i <= |keys|
      invariant Walk(props, LanguageStart(lang), keys) == Walk(props, r, keys[i..])
    {
      var found := Step(props, r, keys[i]);
      if found.None? {
        assert Walk(props, LanguageStart(lang), keys) == None;
        r := Object(Root(En));
        var j := 0;
        while j < |keys|
          invariant 0 <= j <= |keys|
          invariant FallbackWalk(props, Object(Root(En)), keys, key) == FallbackWalk(props, r, keys[j..], key)
        {
          assert keys[j..][1..] == keys[j + 1..];
          r := OrKey(Step(props, r, keys[j]), key);
          j := j + 1;
        }
        assert keys[j..] == [];
        break;
      }
      assert keys[i..][1..] == keys[i + 1..];
      r := found.value;
      i := i + 1;
    }
  }

  /** What the fallback of `t` returns when it starts at `v` (the English table): the
      value at the whole path when it is defined and not an empty string, and
      otherwise the key itself. */
  function Resolution(props: Props, v: Value, keys: seq<string>, key: string): Value {
    match Walk(props, v, keys)
    case Some(w) => if w == Text("") then Text(key) else w
    case None => Text(key)
  }

  lemma {:induction false} FallbackWalkResolves(props: Props, v: Value, keys: seq<string>, key: string)
    requires |keys| >= 1
    ensures FallbackWalk(props, v, keys, key) == Resolution(props, v, keys, key)
    decreases |keys|
  {
    if |keys| > 1 {
      var next := OrKey(Step(props, v, keys[0]), key);
      FallbackWalkResolves(props, next, keys[1..], key);
      assert keys[1..] != [];
      var rest := keys[1..];
      assert Walk(props, Text(key), rest) == None && Walk(props, Text(""), rest) == None;
      match Step(props, v, keys[0])
      case None =>
      case Some(w) => assert Walk(props, v, keys) == Walk(props, w, rest);
    } else {
      assert keys[1..] == [];
      match Step(props, v, keys[0])
      case None =>
      case Some(w) => assert Walk(props, w, []) == Some(w);
    }
  }

  // ---------------------------------------------------------------------------
  // What `t` promises
  // ---------------------------------------------------------------------------

  /** A language without a table is looked up in the English table. */
  lemma UnknownLanguageReadsEnglish(props: Props, key: string, lang: string)
    requires lang != "en" && lang != "zh"
    ensures Translation(props, key, lang) == Translation(props, key, "en")
  {
  }

  /** When every piece of the key is defined in the language's table, `t` returns the
      value at the end of that walk. */
  lemma TranslationFollowsPath(props: Props, key: string, lang: string)
    requires Walk(props, LanguageStart(lang), Split(key)).Some?
    ensures Translation(props, key, lang) == Walk(props, LanguageStart(lang), Split(key)).value
  {
  }

  /** When some piece is missing in the language's table, `t` returns the English value
      of the whole path, or the key itself when that is missing (or empty) too. */
  lemma {:induction false} MissingPieceFallsBackToEnglish(props: Props, key: string, lang: string)
    requires Walk(props, LanguageStart(lang), Split(key)).None?
    ensures Translation(props, key, lang) == Resolution(props, Object(Root(En)), Split(key), key)
    ensures Walk(props, Object(Root(En)), Split(key)).None? ==> Translation(props, key, lang) == Text(key)
  {
    FallbackWalkResolves(props, Object(Root(En)), Split(key), key);
  }

  /** `focusBar.overdueTasks` in Chinese is the nested Chinese text. */
  lemma TranslatesNestedChineseKey()
    ensures Join(["focusBar", "overdueTasks"]) == "focusBar.overdueTasks"
    ensures Translation(Property, Join(["focusBar", "overdueTasks"]), "zh") == Text("逾期任务")
  {
    assert ["focusBar", "overdueTasks"][1..] == ["overdueTasks"];
    SplitJoin(["focusBar", "overdueTasks"]);
    assert Property(Root(Zh), "focusBar") == Some(Object(FocusBar(Zh)));
    assert Property(FocusBar(Zh), "overdueTasks") == Some(Text("逾期任务"));
    assert Walk(Property, Object(Root(Zh)), ["focusBar", "overdueTasks"]) == Some(Text("逾期任务"));
  }

  /** English `tasks` is defined twice; the later definition is the one `t` returns. */
  lemma TranslatesDuplicatedTasks()
    ensures Translation(Property, "tasks", "en") == Text("Tasks")
  {
    SplitWithoutDot("tasks");
    assert Property(Root(En), "tasks") == Some(Text("Tasks"));
  }

  /** English `cancel` is defined twice; the later definition is the one `t` returns. */
  lemma TranslatesDuplicatedCancel()
    ensures Translation(Property, "cancel", "en") == Text("Cancel")
  {
    SplitWithoutDot("cancel");
    assert Property(Root(En), "cancel") == Some(Text("Cancel"));
  }

  /** The Chinese focus bar has no `none` text. */
  lemma ChineseFocusBarHasNoNone()
    ensures Walk(Property, Object(Root(Zh)), ["focusBar", "none"]) == None
  {
    assert Property(Root(Zh), "focusBar") == Some(Object(FocusBar(Zh)));
  }

  /** The English focus bar has no `none` text. */
  lemma EnglishFocusBarHasNoNone()
    ensures Walk(Property, Object(Root(En)), ["focusBar", "none"]) == None
  {
    assert Property(Root(En), "focusBar") == Some(Object(FocusBar(En)));
  }

  /** `focusBar.none` has no Chinese text and no English text: `t` answers with the key. */
  lemma TranslatesMissingKey()
    ensures Join(["focusBar", "none"]) == "focusBar.none"
    ensures Translation(Property, Join(["focusBar", "none"]), "zh") == Text(Join(["focusBar", "none"]))
  {
    assert ["focusBar", "none"][1..] == ["none"];
    SplitJoin(["focusBar", "none"]);
    ChineseFocusBarHasNoNone();
    EnglishFocusBarHasNoNone();
    MissingPieceFallsBackToEnglish(Property, Join(["focusBar", "none"]), "zh");
  }

  /** A language without a table is answered from the English table. */
  lemma TranslatesUnknownLanguage()
    ensures Translation(Property, "login", "fr") == Text("Log in")
  {
    SplitWithoutDot("login");
    assert Property(Root(En), "login") == Some(Text("Log in"));
  }

  // ---------------------------------------------------------------------------
  // Current language and greeting
  // ---------------------------------------------------------------------------

  /** `getCurrentLanguage()`: the stored language (`stored` is None when nothing is
      stored or there is no storage), with a missing or empty value defaulting to 'en'. */
  function CurrentLanguage(stored: Option<string>): (r: string)
    ensures r != ""
    ensures stored.Some? && stored.value != "" <==> r == stored.GetOr("")
    ensures !(stored.Some? && stored.value != "") ==> r == "en"
  {
    if stored.Some? && stored.value != "" then stored.value else "en"
  }

  /** The part of the day an hour falls in: before noon, before five, or later. */
  function DayPart(hour: int): string {
    if hour < 12 then "morning"
    else if hour < 17 then "afternoon"
    else "evening"
  }

  /** What evaluating `translations[lang].greeting[part]` does: an undefined step
      before the last throws a TypeError; an undefined last step yields undefined (None). */
  datatype Thrown = TypeError

  /** `getTranslatedGreeting()` at a given hour of the clock. It reads the language's
      table directly, with no English fallback. */
  function TranslatedGreeting(hour: int, stored: Option<string>): (r: Result<Option<Value>, Thrown>)
    ensures LanguageTable(CurrentLanguage(stored)).None? ==> r == Failure(TypeError)
    ensures r.Success? && r.value.Some? ==>
      r.value.value == Translation(Property, Join(["greeting", DayPart(hour)]), CurrentLanguage(stored))
  {
    SplitJoin(["greeting", DayPart(hour)]);
    match LanguageTable(CurrentLanguage(stored))
    case None => Failure(TypeError)
    case Some(table) =>
      WalkTwo(Property, table, "greeting", DayPart(hour));
      match Step(Property, table, "greeting")
      case None => Failure(TypeError)
      case Some(greeting) => Success(Step(Property, greeting, DayPart(hour)))
  }

  /** With no stored language the greeting is the English one: the morning text before
      12, the afternoon text from 12 to 16 and the evening text from 17 on. */
  lemma GreetingInEnglish(hour: int)
    ensures hour < 12 ==> TranslatedGreeting(hour, None) == Success(Some(Text("Good morning")))
    ensures 12 <= hour < 17 ==> TranslatedGreeting(hour, None) == Success(Some(Text("Good afternoon")))
    ensures 17 <= hour ==> TranslatedGreeting(hour, None) == Success(Some(Text("Good evening")))
  {
    assert Property(Root(En), "greeting") == Some(Object(Greeting(En)));
  }

  /** With Chinese stored the greeting is the Chinese one, by the same hours. */
  lemma GreetingInChinese(hour: int)
    ensures hour < 12 ==> TranslatedGreeting(hour, Some("zh")) == Success(Some(Text("早上好")))
    ensures 12 <= hour < 17 ==> TranslatedGreeting(hour, Some("zh")) == Success(Some(Text("下午好")))
    ensures 17 <= hour ==> TranslatedGreeting(hour, Some("zh")) == Success(Some(Text("晚上好")))
  {
    assert Property(Root(Zh), "greeting") == Some(Object(Greeting(Zh)));
  }

  /** A stored language without a table makes the greeting throw. */
  lemma GreetingWithoutTableThrows(hour: int, lang: string)
    requires lang != "" && lang != "en" && lang != "zh"
    ensures TranslatedGreeting(hour, Some(lang)) == Failure(TypeError)
  {
  }
}
