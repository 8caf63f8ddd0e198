/**
 * The activation-key grammar and the press-and-hold listener of
 * localwhisper/core/hotkey_manager.py.
 *
 * `platform.system()` is the parameter `system`; the wall clock read by
 * `time.time()` is the parameter `now` (seconds); the pynput listener thread
 * delivers key events by calling HandlePress and HandleRelease; a callback is
 * identified by a number, and calling it appends to the log `fired`.
 */
module Hotkey {
  import opened Wrappers
  import opened Text
  import Configuration

  /** The modifier tokens a combo can hold after normalisation. */
  datatype Modifier = Alt | Cmd | Ctrl | Shift | Win

  function ModifierName(m: Modifier): string {
    match m
    case Alt => "alt"
    case Cmd => "cmd"
    case Ctrl => "ctrl"
    case Shift => "shift"
    case Win => "win"
  }

  /** The parts `from_string` treats as modifiers. */
  const ModifierNames: set<string> := {"alt", "ctrl", "control", "shift", "cmd", "win", "meta"}

  /** The command/windows key: `cmd` on macOS, `win` elsewhere. */
  function SuperKey(system: string): Modifier {
    if system == "Darwin" then Cmd else Win
  }

  /** `control` becomes `ctrl`; `cmd`, `win` and `meta` become the platform's super key. */
  function NormalizeModifier(part: string, system: string): (m: Modifier)
    requires part in ModifierNames
    ensures part in {"cmd", "win", "meta"} <==> m == SuperKey(system)
    ensures m !in {Cmd, Win} ==> part == ModifierName(m) || (part == "control" && m == Ctrl)
  {
    if part == "alt" then Alt
    else if part == "ctrl" || part == "control" then Ctrl
    else if part == "shift" then Shift
    else SuperKey(system)
  }

  /** A modifier that is native to the platform is read back as itself. */
  lemma NormalizeName(m: Modifier, system: string)
    requires m != Cmd || system == "Darwin"
    requires m != Win || system != "Darwin"
    ensures ModifierName(m) in ModifierNames && NormalizeModifier(ModifierName(m), system) == m
  {
  }

  /** `HotkeyCombo`: a set of modifiers and one primary key. */
  datatype Combo = Combo(modifiers: set<Modifier>, key: string)

  /** The variables `modifiers` and `key` of `from_string`'s loop. */
  datatype ParseState = ParseState(modifiers: set<Modifier>, key: Option<string>)

  /** The parts of a hotkey string: lower-cased, spaces removed, split on `+`. */
  function Tokens(hotkeyStr: string): (r: seq<string>)
    ensures |r| >= 1
    ensures forall i :: 0 <= i < |r| ==> '+' !in r[i]
  {
    Split(Normalized(hotkeyStr), '+')
  }

  /** `s.lower().replace(" ", "")`, the form both the parser and the conflict check compare. */
  function Normalized(s: string): (r: string)
    ensures ' ' !in r
  {
    ReplaceRemoves(Lower(s), ' ');
    Replace(Lower(s), ' ', "")
  }

  /** Case does not matter after normalisation. */
  lemma NormalizedIgnoresCase(s: string)
    ensures Normalized(Lower(s)) == Normalized(s)
  {
    LowerOfLower(Lower(s));
  }

  /** A space does not matter after normalisation. */
  lemma NormalizedIgnoresSpace(a: string, b: string)
    ensures Normalized(a + " " + b) == Normalized(a + b)
  {
    LowerAppend(a + " ", b);
    LowerAppend(a, " ");
    LowerAppend(a, b);
    assert Lower(" ") == " ";
    ReplaceDeletes(Lower(a), Lower(b), ' ');
  }

  /** One pass of `from_string`'s loop: a modifier joins the set, any other part becomes the key. */
  function ParseStep(st: ParseState, part: string, system: string): ParseState {
    if part in ModifierNames then ParseState(st.modifiers + {NormalizeModifier(part, system)}, st.key)
    else ParseState(st.modifiers, Some(part))
  }

  /** The loop of `from_string` over `parts`, from `modifiers = set()` and `key = None`. */
  function ParseParts(parts: seq<string>, system: string): ParseState
    decreases |parts|
  {
    if parts == [] then ParseState({}, None)
    else ParseStep(ParseParts(parts[..|parts| - 1], system), parts[|parts| - 1], system)
  }

  lemma ParsePartsSnoc(parts: seq<string>, part: string, system: string)
    ensures ParseParts(parts + [part], system) == ParseStep(ParseParts(parts, system), part, system)
  {
    assert (parts + [part])[..|parts|] == parts;
  }

  /** The key is `None` exactly when every part is a modifier, and otherwise the last part that is not. */
  lemma {:induction false} ParsePartsKey(parts: seq<string>, system: string)
    ensures ParseParts(parts, system).key.None? <==> forall i :: 0 <= i < |parts| ==> parts[i] in ModifierNames
    ensures ParseParts(parts, system).key.Some? ==>
              exists i :: 0 <= i < |parts| && parts[i] == ParseParts(parts, system).key.value
                          && parts[i] !in ModifierNames
                          && forall j :: i < j < |parts| ==> parts[j] in ModifierNames
    decreases |parts|
  {
    if parts != [] {
      var n := |parts| - 1;
      var init := parts[..n];
      ParsePartsKey(init, system);
      assert forall i :: 0 <= i < n ==> init[i] == parts[i];
      if parts[n] in ModifierNames && ParseParts(init, system).key.Some? {
        var i :| 0 <= i < n && init[i] == ParseParts(init, system).key.value && init[i] !in ModifierNames
                 && forall j :: i < j < n ==> init[j] in ModifierNames;
        assert parts[i] == ParseParts(parts, system).key.value;
      }
    }
  }

  /** The modifiers are the normalised forms of exactly the parts that are modifier words. */
  lemma {:induction false} ParsePartsModifiers(parts: seq<string>, system: string)
    ensures forall m :: m in ParseParts(parts, system).modifiers <==>
              exists i :: 0 <= i < |parts| && parts[i] in ModifierNames
                          && NormalizeModifier(parts[i], system) == m
    decreases |parts|
  {
    if parts != [] {
      var n := |parts| - 1;
      var init := parts[..n];
      ParsePartsModifiers(init, system);
      assert forall i :: 0 <= i < n ==> init[i] == parts[i];
      forall m | m in ParseParts(parts, system).modifiers
        ensures exists i :: 0 <= i < |parts| && parts[i] in ModifierNames
                            && NormalizeModifier(parts[i], system) == m {
        if m !in ParseParts(init, system).modifiers {
          assert parts[n] in ModifierNames && NormalizeModifier(parts[n], system) == m;
        }
      }
      forall m | exists i :: 0 <= i < |parts| && parts[i] in ModifierNames
                             && NormalizeModifier(parts[i], system) == m
        ensures m in ParseParts(parts, system).modifiers {
        var i :| 0 <= i < |parts| && parts[i] in ModifierNames && NormalizeModifier(parts[i], system) == m;
        if i < n {
          assert init[i] == parts[i];
        }
      }
    }
  }

  /** `HotkeyCombo.from_string` as a value: a combo, or the `ValueError` for a string without a key. */
  function Parse(hotkeyStr: string, system: string): (r: Result<Combo>)
    ensures r.Err? ==> r.message == "Invalid hotkey: " + hotkeyStr + " - no key specified"
    ensures r.Ok? ==> r.value.key in Tokens(hotkeyStr) && r.value.key !in ModifierNames
                      && '+' !in r.value.key
  {
    var st := ParseParts(Tokens(hotkeyStr), system);
    ParsePartsKey(Tokens(hotkeyStr), system);
    if st.key.None? then Err("Invalid hotkey: " + hotkeyStr + " - no key specified")
    else Ok(Combo(st.modifiers, st.key.value))
  }

  /** `HotkeyCombo.from_string`: the loop over the parts, updating `modifiers` and `key`. */
  method FromString(hotkeyStr: string, system: string) returns (r: Result<Combo>)
    ensures r == Parse(hotkeyStr, system)
  {
    var parts := Tokens(hotkeyStr);
    var modifiers: set<Modifier> := {};
    var key: Option<string> := None;
    var i := 0;
    while i < |parts|
      invariant 0 <= i <= |parts|
      invariant ParseState(modifiers, key) == ParseParts(parts[..i], system)
    {
      var part := parts[i];
      assert parts[..i + 1] == parts[..i] + [part];
      ParsePartsSnoc(parts[..i], part, system);
      if part in ModifierNames {
        modifiers := modifiers + {NormalizeModifier(part, system)};
      } else {
        key := Some(part);
      }
      i := i + 1;
    }
    assert parts[..|parts|] == parts;
    if key.None? {
      return Err("Invalid hotkey: " + hotkeyStr + " - no key specified");
    }
    return Ok(Combo(modifiers, key.value));
  }

  /** A string parses exactly when some part is not a modifier; the key is the last such part. */
  lemma ParseAccepts(hotkeyStr: string, system: string)
    ensures Parse(hotkeyStr, system).Ok? <==>
              exists i :: 0 <= i < |Tokens(hotkeyStr)| && Tokens(hotkeyStr)[i] !in ModifierNames
    ensures Parse(hotkeyStr, system).Ok? ==>
              var t := Tokens(hotkeyStr);
              exists i :: 0 <= i < |t| && t[i] == Parse(hotkeyStr, system).value.key
                          && t[i] !in ModifierNames
                          && forall j :: i < j < |t| ==> t[j] in ModifierNames
    ensures Parse(hotkeyStr, system).Ok? ==>
              forall m :: m in Parse(hotkeyStr, system).value.modifiers <==>
                exists i :: 0 <= i < |Tokens(hotkeyStr)| && Tokens(hotkeyStr)[i] in ModifierNames
                            && NormalizeModifier(Tokens(hotkeyStr)[i], system) == m
  {
    ParsePartsKey(Tokens(hotkeyStr), system);
    ParsePartsModifiers(Tokens(hotkeyStr), system);
  }

  /** A part that survives normalisation and splitting unchanged. */
  predicate PlainPart(p: string) {
    IsLower(p) && ' ' !in p && '+' !in p
  }

  lemma ModifierNamePlain(m: Modifier)
    ensures PlainPart(ModifierName(m))
  {
    match m
    case Alt => assert PlainPart("alt");
    case Cmd => assert PlainPart("cmd");
    case Ctrl => assert PlainPart("ctrl");
    case Shift => assert PlainPart("shift");
    case Win => assert PlainPart("win");
  }

  /** Normalising a plain string changes nothing. */
  lemma NormalizedPlain(s: string)
    requires IsLower(s) && ' ' !in s
    ensures Normalized(s) == s
  {
    LowerOfLower(s);
  }

  /** The parts of a string written with plain parts joined by `+`. */
  lemma TokensOfJoin(parts: seq<string>)
    requires |parts| >= 1
    requires forall i :: 0 <= i < |parts| ==> PlainPart(parts[i])
    ensures Tokens(Join(parts, '+')) == parts
  {
    var s := Join(parts, '+');
    assert IsLower(s) by {
      forall k | 0 <= k < |s| ensures !('A' <= s[k] <= 'Z') {
        if 'A' <= s[k] <= 'Z' {
          JoinChars(parts, '+', s[k]);
        }
      }
    }
    LowerOfLower(s);
    assert ' ' !in s by {
      if ' ' in s {
        JoinChars(parts, '+', ' ');
      }
    }
    SplitJoin(parts, '+');
  }

  lemma {:induction false} JoinChars(parts: seq<string>, sep: char, x: char)
    requires x != sep && x in Join(parts, sep)
    ensures exists i :: 0 <= i < |parts| && x in parts[i]
  {
    if |parts| > 1 {
      if x !in parts[0] {
        JoinChars(parts[1..], sep, x);
        var i :| 0 <= i < |parts[1..]| && x in parts[1..][i];
        assert x in parts[i + 1];
      }
    }
  }

  /** `from_string` depends on the string only through its parts. */
  lemma ParseOfTokens(s: string, system: string, parts: seq<string>, c: Combo)
    requires Tokens(s) == parts
    ensures ParseParts(parts, system) == ParseState(c.modifiers, Some(c.key)) ==> Parse(s, system) == Ok(c)
    ensures ParseParts(parts, system).key.None? ==>
              Parse(s, system) == Err("Invalid hotkey: " + s + " - no key specified")
  {
  }

  /** Two strings with the same parts parse alike (up to the string quoted in the error). */
  lemma SameTokensSameParse(s: string, t: string, system: string)
    requires Tokens(s) == Tokens(t)
    ensures Parse(s, system).Ok? == Parse(t, system).Ok?
    ensures Parse(s, system).Ok? ==> Parse(s, system).value == Parse(t, system).value
  {
  }

  /** Case does not matter: `ALT+S` is read as `alt+s`. */
  lemma ParseIgnoresCase(s: string, system: string)
    ensures Parse(Lower(s), system).Ok? == Parse(s, system).Ok?
    ensures Parse(s, system).Ok? ==> Parse(Lower(s), system).value == Parse(s, system).value
  {
    NormalizedIgnoresCase(s);
    SameTokensSameParse(Lower(s), s, system);
  }

  /** Spaces do not matter: `alt + s` is read as `alt+s`. */
  lemma ParseIgnoresSpace(a: string, b: string, system: string)
    ensures Parse(a + " " + b, system).Ok? == Parse(a + b, system).Ok?
    ensures Parse(a + b, system).Ok? ==> Parse(a + " " + b, system).value == Parse(a + b, system).value
  {
    NormalizedIgnoresSpace(a, b);
    SameTokensSameParse(a + " " + b, a + b, system);
  }

  lemma TokensAltS()
    ensures Tokens("alt+s") == ["alt", "s"]
  {
    assert Join(["alt", "s"], '+') == "alt+s";
    TokensOfJoin(["alt", "s"]);
  }

  lemma PartsAltS(system: string)
    ensures ParseParts(["alt", "s"], system) == ParseState({Alt}, Some("s"))
  {
    ParsePartsSnoc([], "alt", system);
    assert [] + ["alt"] == ["alt"];
    ParsePartsSnoc(["alt"], "s", system);
    assert ["alt"] + ["s"] == ["alt", "s"];
  }

  /** The bundled tests' `alt+s`: one modifier and the key. */
  lemma ParseAltS(system: string)
    ensures Parse("alt+s", system) == Ok(Combo({Alt}, "s"))
  {
    TokensAltS();
    PartsAltS(system);
    ParseOfTokens("alt+s", system, ["alt", "s"], Combo({Alt}, "s"));
  }

  lemma TokensControlC()
    ensures Tokens("control+c") == ["control", "c"]
  {
    assert Join(["control", "c"], '+') == "control+c";
    TokensOfJoin(["control", "c"]);
  }

  lemma PartsControlC(system: string)
    ensures ParseParts(["control", "c"], system) == ParseState({Ctrl}, Some("c"))
  {
    ParsePartsSnoc([], "control", system);
    assert [] + ["control"] == ["control"];
    ParsePartsSnoc(["control"], "c", system);
    assert ["control"] + ["c"] == ["control", "c"];
  }

  /** `control` is an alias of `ctrl`. */
  lemma ParseControlAlias(system: string)
    ensures Parse("control+c", system) == Ok(Combo({Ctrl}, "c"))
  {
    TokensControlC();
    PartsControlC(system);
    ParseOfTokens("control+c", system, ["control", "c"], Combo({Ctrl}, "c"));
  }

  lemma TokensCtrlShift()
    ensures Tokens("ctrl+shift") == ["ctrl", "shift"]
  {
    assert Join(["ctrl", "shift"], '+') == "ctrl+shift";
    TokensOfJoin(["ctrl", "shift"]);
  }

  lemma PartsCtrlShift(system: string)
    ensures ParseParts(["ctrl", "shift"], system) == ParseState({Ctrl, Shift}, None)
  {
    ParsePartsSnoc([], "ctrl", system);
    assert [] + ["ctrl"] == ["ctrl"];
    ParsePartsSnoc(["ctrl"], "shift", system);
    assert ["ctrl"] + ["shift"] == ["ctrl", "shift"];
  }

  /** The shipped default `ctrl+shift` names no primary key, so `from_string` rejects it. */
  lemma DefaultHotkeyRejected(system: string)
    ensures var s := Configuration.DefaultHotkey.activationKey;
            Parse(s, system) == Err("Invalid hotkey: " + s + " - no key specified")
  {
    assert Configuration.DefaultHotkey.activationKey == "ctrl+shift";
    TokensCtrlShift();
    PartsCtrlShift(system);
    ParseOfTokens("ctrl+shift", system, ["ctrl", "shift"], Combo({}, ""));
  }

  lemma TokensCollapse()
    ensures Tokens("ctrl+control+a+b") == ["ctrl", "control", "a", "b"]
  {
    var parts := ["ctrl", "control", "a", "b"];
    assert Join(["a", "b"], '+') == "a+b" by {
      assert ["a", "b"][1..] == ["b"];
    }
    assert Join(["control", "a", "b"], '+') == "control+a+b" by {
      assert ["control", "a", "b"][1..] == ["a", "b"];
    }
    assert Join(parts, '+') == "ctrl+control+a+b" by {
      assert parts[1..] == ["control", "a", "b"];
    }
    assert forall i :: 0 <= i < |parts| ==> PlainPart(parts[i]) by {
      assert PlainPart("ctrl") && PlainPart("control") && PlainPart("a") && PlainPart("b");
    }
    TokensOfJoin(parts);
  }

  lemma PartsCollapse(system: string)
    ensures ParseParts(["ctrl", "control", "a", "b"], system) == ParseState({Ctrl}, Some("b"))
  {
    ParsePartsSnoc([], "ctrl", system);
    assert [] + ["ctrl"] == ["ctrl"];
    ParsePartsSnoc(["ctrl"], "control", system);
    assert ["ctrl"] + ["control"] == ["ctrl", "control"];
    ParsePartsSnoc(["ctrl", "control"], "a", system);
    assert ["ctrl", "control"] + ["a"] == ["ctrl", "control", "a"];
    ParsePartsSnoc(["ctrl", "control", "a"], "b", system);
    assert ["ctrl", "control", "a"] + ["b"] == ["ctrl", "control", "a", "b"];
  }

  /** Repeated modifiers collapse and, of several keys, the last one wins. */
  lemma ParseCollapses(system: string)
    ensures Parse("ctrl+control+a+b", system) == Ok(Combo({Ctrl}, "b"))
  {
    TokensCollapse();
    PartsCollapse(system);
    ParseOfTokens("ctrl+control+a+b", system, ["ctrl", "control", "a", "b"], Combo({Ctrl}, "b"));
  }

  lemma TokensSuper()
    ensures Tokens("meta+win+x") == ["meta", "win", "x"]
  {
    var parts := ["meta", "win", "x"];
    assert Join(parts, '+') == "meta+win+x" by {
      assert parts[1..] == ["win", "x"];
    }
    TokensOfJoin(parts);
  }

  lemma PartsSuper(system: string)
    ensures ParseParts(["meta", "win", "x"], system) == ParseState({SuperKey(system)}, Some("x"))
  {
    ParsePartsSnoc([], "meta", system);
    assert [] + ["meta"] == ["meta"];
    ParsePartsSnoc(["meta"], "win", system);
    assert ["meta"] + ["win"] == ["meta", "win"];
    ParsePartsSnoc(["meta", "win"], "x", system);
    assert ["meta", "win"] + ["x"] == ["meta", "win", "x"];
  }

  /** `cmd`, `win` and `meta` all name the platform's super key. */
  lemma ParseSuperAliases(system: string)
    ensures Parse("meta+win+x", system) == Ok(Combo({SuperKey(system)}, "x"))
  {
    TokensSuper();
    PartsSuper(system);
    ParseOfTokens("meta+win+x", system, ["meta", "win", "x"], Combo({SuperKey(system)}, "x"));
  }

  /** The modifiers in the order `sorted` puts their names: alt, cmd, ctrl, shift, win. */
  const ModifierOrder: seq<Modifier> := [Alt, Cmd, Ctrl, Shift, Win]

  /** The name of `m` when it is in `ms`, else nothing. */
  function NameIfIn(m: Modifier, ms: set<Modifier>): (r: seq<string>)
    ensures forall x :: x in r <==> m in ms && x == ModifierName(m)
  {
    if m in ms then [ModifierName(m)] else []
  }

  /** `sorted(modifiers)` as names. */
  function SortedModifierNames(ms: set<Modifier>): (r: seq<string>)
    ensures forall x :: x in r <==> exists m :: m in ms && x == ModifierName(m)
  {
    var r := NameIfIn(Alt, ms) + NameIfIn(Cmd, ms) + NameIfIn(Ctrl, ms) + NameIfIn(Shift, ms) + NameIfIn(Win, ms);
    assert forall m :: m in ms ==> ModifierName(m) in r by {
      forall m | m in ms ensures ModifierName(m) in r {
        assert ModifierName(m) in NameIfIn(m, ms);
        assert m.Alt? || m.Cmd? || m.Ctrl? || m.Shift? || m.Win?;
      }
    }
    r
  }

  /** Python's ordering of strings. */
  predicate LexLess(a: string, b: string) {
    if a == [] then b != []
    else b != [] && (a[0] < b[0] || (a[0] == b[0] && LexLess(a[1..], b[1..])))
  }

  /** The names `to_string` emits are in Python's string order. */
  lemma SortedModifierNamesSorted(ms: set<Modifier>)
    ensures var r := SortedModifierNames(ms);
            forall i, j :: 0 <= i < j < |r| ==> LexLess(r[i], r[j])
  {
    assert LexLess("alt", "cmd") && LexLess("alt", "ctrl") && LexLess("alt", "shift") && LexLess("alt", "win");
    assert LexLess("cmd", "shift") && LexLess("cmd", "win") && LexLess("ctrl", "win");
    assert LexLess("ctrl", "shift") && LexLess("shift", "win");
    assert LexLess("cmd", "ctrl") by {
      assert "cmd"[1..] == "md" && "ctrl"[1..] == "trl";
    }
  }

  /** `HotkeyCombo.to_string`. */
  function ToString(c: Combo): (r: string)
    ensures c.modifiers == {} ==> r == c.key
  {
    var parts := SortedModifierNames(c.modifiers) + [c.key];
    assert c.modifiers == {} ==> parts == [c.key];
    Join(parts, '+')
  }

  /** Splitting the printed form at '+' gives the sorted modifier names, then the key. */
  lemma ToStringSplits(c: Combo)
    requires '+' !in c.key
    ensures Split(ToString(c), '+') == SortedModifierNames(c.modifiers) + [c.key]
  {
    var parts := SortedModifierNames(c.modifiers) + [c.key];
    forall i | 0 <= i < |parts| ensures '+' !in parts[i] {
      if i < |parts| - 1 {
        var m :| m in c.modifiers && parts[i] == ModifierName(m);
        ModifierNamePlain(m);
      }
    }
    SplitJoin(parts, '+');
  }

  /** A single modifier prints before the key. */
  lemma ToStringSingle()
    ensures ToString(Combo({Alt}, "s")) == "alt+s"
  {
    assert SortedModifierNames({Alt}) + ["s"] == ["alt", "s"];
    assert Join(["alt", "s"], '+') == "alt+s";
  }

  /** `to_string` puts ctrl before shift, whatever order the set was written in. */
  lemma ToStringSorted()
    ensures ToString(Combo({Shift, Ctrl}, "r")) == "ctrl+shift+r"
  {
    assert SortedModifierNames({Shift, Ctrl}) == ["ctrl", "shift"];
    assert ["ctrl", "shift"] + ["r"] == ["ctrl", "shift", "r"];
    assert Join(["ctrl", "shift", "r"], '+') == "ctrl+shift+r" by {
      assert ["ctrl", "shift", "r"][1..] == ["shift", "r"];
    }
  }

  /** A key that `from_string` can read back: lower case, no space or `+`, not a modifier word. */
  predicate NormalKey(key: string) {
    IsLower(key) && ' ' !in key && '+' !in key && key !in ModifierNames
  }

  /** Modifiers that `from_string` can produce on this platform. */
  predicate NativeModifiers(ms: set<Modifier>, system: string) {
    (system == "Darwin" ==> Win !in ms) && (system != "Darwin" ==> Cmd !in ms)
  }

  /** The parts of `to_string(c)` are the sorted modifier names followed by the key. */
  lemma RoundTripTokens(c: Combo)
    requires NormalKey(c.key)
    ensures Tokens(ToString(c)) == SortedModifierNames(c.modifiers) + [c.key]
  {
    var names := SortedModifierNames(c.modifiers);
    var parts := names + [c.key];
    forall i | 0 <= i < |parts| ensures PlainPart(parts[i]) {
      if i < |names| {
        var m :| m in c.modifiers && parts[i] == ModifierName(m);
        ModifierNamePlain(m);
      }
    }
    TokensOfJoin(parts);
  }

  lemma ReadName(p: seq<string>, m: Modifier, ms: set<Modifier>, system: string, seen: set<Modifier>)
    requires NativeModifiers(ms, system)
    requires ParseParts(p, system) == ParseState(ms * seen, None)
    ensures ParseParts(p + NameIfIn(m, ms), system) == ParseState(ms * (seen + {m}), None)
  {
    if m in ms {
      NormalizeName(m, system);
      ParsePartsSnoc(p, ModifierName(m), system);
      assert ms * seen + {m} == ms * (seen + {m});
    } else {
      assert p + NameIfIn(m, ms) == p;
      assert ms * seen == ms * (seen + {m});
    }
  }

  /** Reading the sorted names back gives the modifiers again. */
  lemma RoundTripModifiers(ms: set<Modifier>, system: string)
    requires NativeModifiers(ms, system)
    ensures ParseParts(SortedModifierNames(ms), system) == ParseState(ms, None)
  {
    var p0: seq<string> := [];
    assert ParseParts(p0, system) == ParseState(ms * {}, None);
    ReadName(p0, Alt, ms, system, {});
    var p1 := p0 + NameIfIn(Alt, ms);
    ReadName(p1, Cmd, ms, system, {Alt});
    var p2 := p1 + NameIfIn(Cmd, ms);
    ReadName(p2, Ctrl, ms, system, {Alt, Cmd});
    var p3 := p2 + NameIfIn(Ctrl, ms);
    ReadName(p3, Shift, ms, system, {Alt, Cmd, Ctrl});
    var p4 := p3 + NameIfIn(Shift, ms);
    ReadName(p4, Win, ms, system, {Alt, Cmd, Ctrl, Shift});
    var p5 := p4 + NameIfIn(Win, ms);
    assert p5 == SortedModifierNames(ms);
    assert ms * {Alt, Cmd, Ctrl, Shift, Win} == ms by {
      forall m | m in ms ensures m in {Alt, Cmd, Ctrl, Shift, Win} {
        assert m.Alt? || m.Cmd? || m.Ctrl? || m.Shift? || m.Win?;
      }
    }
  }

  /** `from_string(to_string(c)) == c` for combos whose key and modifiers are normalised. */
  lemma RoundTrip(c: Combo, system: string)
    requires NormalKey(c.key) && NativeModifiers(c.modifiers, system)
    ensures Parse(ToString(c), system) == Ok(c)
  {
    var names := SortedModifierNames(c.modifiers);
    RoundTripTokens(c);
    RoundTripModifiers(c.modifiers, system);
    ParsePartsSnoc(names, c.key, system);
    ParseOfTokens(ToString(c), system, names + [c.key], c);
  }

  // ---------------------------------------------------------------- key events

  /** A pynput key: special keys carry a `name`, key codes a virtual-key code and a character. */
  datatype PynputKey = PynputKey(name: Option<string>, vk: Option<int>, character: Option<string>)

  /** `str.isprintable` on one character, approximated outside ASCII. */
  function IsPrintable(c: char): (r: bool)
    ensures c < '\U{80}' ==> (r <==> !(c < ' ' || c == '\U{7F}'))
    ensures '\U{80}' <= c <= '\U{A0}' ==> !r
  {
    (' ' <= c <= '~') || c > '\U{A0}'
  }

  /** `HotkeyCombo.matches_pynput_key`. */
  function MatchesKey(c: Combo, k: PynputKey): (r: bool)
    ensures k.name.Some? && k.name.value != "" ==> (r <==> Lower(k.name.value) == Lower(c.key))
  {
    if k.name.Some? && k.name.value != "" then
      Lower(k.name.value) == Lower(c.key)
    else if k.vk.Some? && k.vk.value != 0 && 65 <= k.vk.value <= 90 then
      Lower([k.vk.value as char]) == Lower(c.key)
    else if k.vk.Some? && k.vk.value != 0 && 48 <= k.vk.value <= 57 then
      [k.vk.value as char] == c.key
    else if k.character.Some? && |k.character.value| == 1 && IsPrintable(k.character.value[0]) then
      Lower(k.character.value) == Lower(c.key)
    else
      false
  }

  /**
   * A letter key matches through its virtual-key code whatever character it reports
   * (under Ctrl the character is a control code), and a plain character key matches
   * its own lower-case letter.
   */
  lemma LetterKeyMatches(c: Combo, code: int, ch: Option<string>)
    requires 65 <= code <= 90 && c.key == [(code + 32) as char]
    ensures MatchesKey(c, PynputKey(None, Some(code), ch))
    ensures MatchesKey(c, PynputKey(None, None, Some(c.key)))
    ensures MatchesKey(c, PynputKey(None, None, Some([code as char])))
  {
  }

  /** A special key such as F1 matches case-insensitively by name, never by a code. */
  lemma NamedKeyMatches(c: Combo, name: string, vk: Option<int>)
    requires name != "" && Lower(name) == Lower(c.key)
    ensures MatchesKey(c, PynputKey(Some(name), vk, None))
  {
  }

  /** The names of the twelve special keys `_get_modifier_name` recognises. */
  const ModifierKeyNames: set<string> :=
    {"alt", "alt_l", "alt_r", "ctrl", "ctrl_l", "ctrl_r",
     "shift", "shift_l", "shift_r", "cmd", "cmd_l", "cmd_r"}

  /** `_get_modifier_name`: the modifier a special key stands for, if any. */
  function ModifierOfKey(k: PynputKey, system: string): (r: Option<Modifier>)
    ensures k.name.Some? && k.name.value in {"alt", "alt_l", "alt_r"} ==> r == Some(Alt)
    ensures k.name.Some? && k.name.value in {"ctrl", "ctrl_l", "ctrl_r"} ==> r == Some(Ctrl)
    ensures k.name.Some? && k.name.value in {"shift", "shift_l", "shift_r"} ==> r == Some(Shift)
    ensures k.name.Some? && k.name.value in {"cmd", "cmd_l", "cmd_r"} ==> r == Some(SuperKey(system))
    ensures k.name.None? || k.name.value !in ModifierKeyNames ==> r.None?
    ensures r == Some(Cmd) ==> system == "Darwin"
    ensures r == Some(Win) ==> system != "Darwin"
  {
    if k.name.None? then None
    else
      var n := k.name.value;
      if n in {"alt", "alt_l", "alt_r"} then Some(Alt)
      else if n in {"ctrl", "ctrl_l", "ctrl_r"} then Some(Ctrl)
      else if n in {"shift", "shift_l", "shift_r"} then Some(Shift)
      else if n in {"cmd", "cmd_l", "cmd_r"} then Some(SuperKey(system))
      else None
  }

  type CallbackId = nat

  /** One call of a user callback. */
  datatype Fired = PressCallback(id: CallbackId) | ReleaseCallback(id: CallbackId)

  function CallbackCall(cb: Option<CallbackId>, press: bool): seq<Fired> {
    if cb.None? then [] else if press then [PressCallback(cb.value)] else [ReleaseCallback(cb.value)]
  }

  /** `MIN_HOLD_TIME`: a primary-key release earlier than this after activation is spurious. */
  const MinHoldTime: real := 0.15

  /** `HotkeyManager`: the Idle/Active press-and-hold machine. */
  class HotkeyManager {
    const system: string
    var hotkey: Combo
    var onPress: Option<CallbackId>
    var onRelease: Option<CallbackId>
    var isRunning: bool
    var pressedModifiers: set<Modifier>
    var hotkeyActive: bool
    var activationTime: real
    /** Every callback invocation so far, in order. */
    var fired: seq<Fired>

    constructor FromCombo(combo: Combo, onPress: Option<CallbackId>, onRelease: Option<CallbackId>,
                          system: string)
      ensures this.system == system && hotkey == combo
      ensures this.onPress == onPress && this.onRelease == onRelease
      ensures !isRunning && pressedModifiers == {} && !hotkeyActive && activationTime == 0.0
      ensures fired == []
    {
      this.system := system;
      hotkey := combo;
      this.onPress := onPress;
      this.onRelease := onRelease;
      isRunning := false;
      pressedModifiers := {};
      hotkeyActive := false;
      activationTime := 0.0;
      fired := [];
    }

    /** `HotkeyManager(hotkey, on_press, on_release)`: raises `ValueError` when the string has no key. */
    static method Create(hotkeyStr: string, onPress: Option<CallbackId>, onRelease: Option<CallbackId>,
                         system: string) returns (r: Result<HotkeyManager>)
      ensures Parse(hotkeyStr, system).Err? <==> r.Err?
      ensures r.Ok? ==> fresh(r.value) && r.value.hotkey == Parse(hotkeyStr, system).value
      ensures r.Ok? ==> !r.value.isRunning && !r.value.hotkeyActive && r.value.fired == []
      ensures r.Ok? ==> r.value.onPress == onPress && r.value.onRelease == onRelease
      ensures r.Ok? ==> r.value.system == system && r.value.pressedModifiers == {}
                        && r.value.activationTime == 0.0
      ensures r.Err? ==> r.message == Parse(hotkeyStr, system).message
    {
      var c := FromString(hotkeyStr, system);
      if c.Err? {
        return Err(c.message);
      }
      var m := new HotkeyManager.FromCombo(c.value, onPress, onRelease, system);
      return Ok(m);
    }

    /** `start()`: a no-op while running; otherwise forgets held modifiers and any activation. */
    method Start()
      modifies this
      ensures isRunning
      ensures old(isRunning) ==> pressedModifiers == old(pressedModifiers) && hotkeyActive == old(hotkeyActive)
      ensures !old(isRunning) ==> pressedModifiers == {} && !hotkeyActive
      ensures hotkey == old(hotkey) && onPress == old(onPress) && onRelease == old(onRelease)
      ensures activationTime == old(activationTime) && fired == old(fired)
    {
      if isRunning {
        return;
      }
      pressedModifiers := {};
      hotkeyActive := false;
      isRunning := true;
    }

    /** `stop()`: a no-op while stopped; otherwise stops and forgets held modifiers and any activation. */
    method Stop()
      modifies this
      ensures !isRunning
      ensures !old(isRunning) ==> pressedModifiers == old(pressedModifiers) && hotkeyActive == old(hotkeyActive)
      ensures old(isRunning) ==> pressedModifiers == {} && !hotkeyActive
      ensures hotkey == old(hotkey) && onPress == old(onPress) && onRelease == old(onRelease)
      ensures activationTime == old(activationTime) && fired == old(fired)
    {
      if !isRunning {
        return;
      }
      isRunning := false;
      hotkeyActive := false;
      pressedModifiers := {};
    }

    /**
     * `set_hotkey(s)`: stops a running listener, parses, and restarts it. A string
     * without a key raises after the stop, so the listener stays stopped and the
     * old combo stays.
     */
    method SetHotkey(hotkeyStr: string) returns (r: Result<Combo>)
      modifies this
      ensures r == Parse(hotkeyStr, system)
      ensures r.Ok? ==> hotkey == r.value && isRunning == old(isRunning)
      ensures r.Err? ==> hotkey == old(hotkey) && !isRunning
      ensures old(isRunning) ==> pressedModifiers == {} && !hotkeyActive
      ensures !old(isRunning) ==> pressedModifiers == old(pressedModifiers) && hotkeyActive == old(hotkeyActive)
      ensures onPress == old(onPress) && onRelease == old(onRelease)
      ensures activationTime == old(activationTime) && fired == old(fired)
    {
      var wasRunning := isRunning;
      if wasRunning {
        Stop();
      }
      r := FromString(hotkeyStr, system);
      if r.Err? {
        return;
      }
      hotkey := r.value;
      if wasRunning {
        Start();
      }
    }

    /** `set_callbacks(on_press, on_release)`: a `None` argument keeps the current callback. */
    method SetCallbacks(newPress: Option<CallbackId>, newRelease: Option<CallbackId>)
      modifies this
      ensures onPress == if newPress.Some? then newPress else old(onPress)
      ensures onRelease == if newRelease.Some? then newRelease else old(onRelease)
      ensures hotkey == old(hotkey) && isRunning == old(isRunning)
      ensures pressedModifiers == old(pressedModifiers) && hotkeyActive == old(hotkeyActive)
      ensures activationTime == old(activationTime) && fired == old(fired)
    {
      if newPress.Some? {
        onPress := newPress;
      }
      if newRelease.Some? {
        onRelease := newRelease;
      }
    }

    /**
     * `_handle_press`: a modifier is only recorded; the primary key activates, stamps
     * the time and calls `on_press` once, when exactly the combo's modifiers are held
     * and the manager is not already active.
     */
    method HandlePress(k: PynputKey, now: real)
      modifies this
      ensures hotkey == old(hotkey) && isRunning == old(isRunning)
      ensures onPress == old(onPress) && onRelease == old(onRelease)
      ensures ModifierOfKey(k, system).Some? ==>
                pressedModifiers == old(pressedModifiers) + {ModifierOfKey(k, system).value}
                && hotkeyActive == old(hotkeyActive) && activationTime == old(activationTime)
                && fired == old(fired)
      ensures ModifierOfKey(k, system).None? ==> pressedModifiers == old(pressedModifiers)
      ensures var activates := ModifierOfKey(k, system).None? && MatchesKey(hotkey, k)
                               && old(pressedModifiers) == hotkey.modifiers && !old(hotkeyActive);
              if activates then
                hotkeyActive && activationTime == now && fired == old(fired) + CallbackCall(onPress, true)
              else
                hotkeyActive == old(hotkeyActive) && activationTime == old(activationTime)
                && fired == old(fired)
    {
      var modifier := ModifierOfKey(k, system);
      if modifier.Some? {
        pressedModifiers := pressedModifiers + {modifier.value};
        return;
      }
      if MatchesKey(hotkey, k) {
        if pressedModifiers == hotkey.modifiers {
          if !hotkeyActive {
            hotkeyActive := true;
            activationTime := now;
            if onPress.Some? {
              fired := fired + [PressCallback(onPress.value)];
            }
          }
        }
      }
    }

    /** `_trigger_release`: a release within MinHoldTime of activation is ignored. */
    method TriggerRelease(now: real)
      modifies this
      ensures hotkey == old(hotkey) && isRunning == old(isRunning) && pressedModifiers == old(pressedModifiers)
      ensures onPress == old(onPress) && onRelease == old(onRelease)
      ensures if old(hotkeyActive) && now - old(activationTime) >= MinHoldTime then
                !hotkeyActive && activationTime == 0.0 && fired == old(fired) + CallbackCall(onRelease, false)
              else
                hotkeyActive == old(hotkeyActive) && activationTime == old(activationTime)
                && fired == old(fired)
    {
      if hotkeyActive {
        var elapsed := now - activationTime;
        if elapsed < MinHoldTime {
          return;
        }
        hotkeyActive := false;
        activationTime := 0.0;
        if onRelease.Some? {
          fired := fired + [ReleaseCallback(onRelease.value)];
        }
      }
    }

    /**
     * `_handle_release`: a modifier release only forgets the modifier and never ends
     * an activation; only the primary key's release can.
     */
    method HandleRelease(k: PynputKey, now: real)
      modifies this
      ensures hotkey == old(hotkey) && isRunning == old(isRunning)
      ensures onPress == old(onPress) && onRelease == old(onRelease)
      ensures ModifierOfKey(k, system).Some? ==>
                pressedModifiers == old(pressedModifiers) - {ModifierOfKey(k, system).value}
                && hotkeyActive == old(hotkeyActive) && activationTime == old(activationTime)
                && fired == old(fired)
      ensures ModifierOfKey(k, system).None? ==> pressedModifiers == old(pressedModifiers)
      ensures var deactivates := ModifierOfKey(k, system).None? && MatchesKey(hotkey, k)
                                 && old(hotkeyActive) && now - old(activationTime) >= MinHoldTime;
              if deactivates then
                !hotkeyActive && activationTime == 0.0 && fired == old(fired) + CallbackCall(onRelease, false)
              else
                hotkeyActive == old(hotkeyActive) && activationTime == old(activationTime)
                && fired == old(fired)
    {
      var modifier := ModifierOfKey(k, system);
      if modifier.Some? {
        pressedModifiers := pressedModifiers - {modifier.value};
        return;
      }
      if MatchesKey(hotkey, k) {
        if hotkeyActive {
          TriggerRelease(now);
        }
      }
    }
  }

  /** Press Ctrl+Alt+R at 0 s; a release of R at 0.05 s is spurious; the release at 0.2 s ends the hold. */
  method HoldScenario() {
    var m := new HotkeyManager.FromCombo(Combo({Ctrl, Alt}, "r"), Some(1), Some(2), "Linux");
    m.Start();
    var ctrl := PynputKey(Some("ctrl_l"), None, None);
    var alt := PynputKey(Some("alt_l"), None, None);
    var r := PynputKey(None, Some(82), Some("\U{12}"));
    m.HandlePress(r, 0.0);
    assert m.fired == [] && !m.hotkeyActive;
    m.HandlePress(ctrl, 0.0);
    m.HandlePress(alt, 0.0);
    assert m.pressedModifiers == {Ctrl, Alt};
    assert MatchesKey(m.hotkey, r);
    m.HandlePress(r, 0.0);
    assert m.fired == [PressCallback(1)] && m.hotkeyActive;
    m.HandlePress(r, 0.01);
    assert m.fired == [PressCallback(1)];
    m.HandleRelease(ctrl, 0.03);
    assert m.hotkeyActive;
    m.HandleRelease(r, 0.05);
    assert m.hotkeyActive && m.fired == [PressCallback(1)];
    m.HandleRelease(r, 0.2);
    assert !m.hotkeyActive && m.fired == [PressCallback(1), ReleaseCallback(2)];
  }

  // ---------------------------------------------------------------- checks

  const CommonConflicts: map<string, string> := map[
    "alt+f4" := "Close window (Windows/Linux)",
    "alt+tab" := "Switch window",
    "ctrl+c" := "Copy",
    "ctrl+v" := "Paste",
    "ctrl+x" := "Cut",
    "ctrl+z" := "Undo",
    "ctrl+s" := "Save",
    "ctrl+a" := "Select all",
    "cmd+c" := "Copy (macOS)",
    "cmd+v" := "Paste (macOS)",
    "cmd+q" := "Quit (macOS)",
    "cmd+w" := "Close window (macOS)"
  ]

  /** `check_hotkey_conflict`: a warning exactly when the lower-cased, space-free text is in the table. */
  function CheckHotkeyConflict(hotkey: string): (r: Option<string>)
    ensures r.Some? <==> Normalized(hotkey) in CommonConflicts
    ensures r.Some? ==>
              r.value == "Warning: '" + hotkey + "' conflicts with '" + CommonConflicts[Normalized(hotkey)] + "'"
  {
    var normalized := Normalized(hotkey);
    if normalized in CommonConflicts then
      Some("Warning: '" + hotkey + "' conflicts with '" + CommonConflicts[normalized] + "'")
    else
      None
  }

  /** Case and spaces do not change the verdict of the conflict check. */
  lemma ConflictIgnoresCaseAndSpace(s: string, a: string, b: string)
    ensures CheckHotkeyConflict(Lower(s)).Some? == CheckHotkeyConflict(s).Some?
    ensures CheckHotkeyConflict(a + " " + b).Some? == CheckHotkeyConflict(a + b).Some?
  {
    NormalizedIgnoresCase(s);
    NormalizedIgnoresSpace(a, b);
  }

  lemma TokensCCtrl()
    ensures Tokens("c+ctrl") == ["c", "ctrl"] && Tokens("ctrl+c") == ["ctrl", "c"]
  {
    assert Join(["c", "ctrl"], '+') == "c+ctrl";
    TokensOfJoin(["c", "ctrl"]);
    assert Join(["ctrl", "c"], '+') == "ctrl+c";
    TokensOfJoin(["ctrl", "c"]);
  }

  lemma PartsCCtrl(system: string)
    ensures ParseParts(["c", "ctrl"], system) == ParseState({Ctrl}, Some("c"))
    ensures ParseParts(["ctrl", "c"], system) == ParseState({Ctrl}, Some("c"))
  {
    ParsePartsSnoc([], "c", system);
    assert [] + ["c"] == ["c"];
    ParsePartsSnoc(["c"], "ctrl", system);
    assert ["c"] + ["ctrl"] == ["c", "ctrl"];
    ParsePartsSnoc([], "ctrl", system);
    assert [] + ["ctrl"] == ["ctrl"];
    ParsePartsSnoc(["ctrl"], "c", system);
    assert ["ctrl"] + ["c"] == ["ctrl", "c"];
  }

  /**
   * The conflict check compares text, not combos: `c+ctrl` parses to the same combo
   * as `ctrl+c` but draws no warning.
   */
  lemma ConflictCheckIsTextual(system: string)
    ensures CheckHotkeyConflict("ctrl+c").Some?
    ensures CheckHotkeyConflict("alt+s").None?
    ensures CheckHotkeyConflict("c+ctrl").None?
    ensures Parse("c+ctrl", system) == Parse("ctrl+c", system) == Ok(Combo({Ctrl}, "c"))
  {
    ConflictCtrlC();
    NoConflictAltS();
    NoConflictCCtrl();
    ParseCCtrl(system);
  }

  lemma ConflictCtrlC()
    ensures CheckHotkeyConflict("ctrl+c").Some?
  {
    NormalizedPlain("ctrl+c");
    ConflictTableLookups();
  }

  lemma NoConflictAltS()
    ensures CheckHotkeyConflict("alt+s").None?
  {
    NormalizedPlain("alt+s");
    ConflictTableLookups();
  }

  lemma NoConflictCCtrl()
    ensures CheckHotkeyConflict("c+ctrl").None?
  {
    NormalizedPlain("c+ctrl");
    ConflictTableLookups();
  }

  lemma ConflictTableLookups()
    ensures "ctrl+c" in CommonConflicts && "alt+s" !in CommonConflicts && "c+ctrl" !in CommonConflicts
  {
  }

  lemma ParseCCtrl(system: string)
    ensures Parse("c+ctrl", system) == Parse("ctrl+c", system) == Ok(Combo({Ctrl}, "c"))
  {
    TokensCCtrl();
    PartsCCtrl(system);
    ParseOfTokens("c+ctrl", system, ["c", "ctrl"], Combo({Ctrl}, "c"));
    ParseOfTokens("ctrl+c", system, ["ctrl", "c"], Combo({Ctrl}, "c"));
  }

  /** `validate_hotkey`: empty or blank input first, then the parser's error, else valid. */
  function ValidateHotkey(hotkey: string, system: string): (r: Option<string>)
    ensures r.None? <==> !IsBlank(hotkey) && Parse(hotkey, system).Ok?
    ensures IsBlank(hotkey) ==> r == Some("Hotkey cannot be empty")
    ensures !IsBlank(hotkey) && Parse(hotkey, system).Err? ==> r == Some(Parse(hotkey, system).message)
  {
    StripEmptyIffBlank(hotkey);
    if hotkey == "" || Strip(hotkey) == "" then Some("Hotkey cannot be empty")
    else match Parse(hotkey, system)
      case Ok(_) => None
      case Err(msg) => Some(msg)
  }
}
