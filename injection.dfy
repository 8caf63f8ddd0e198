/**
 * The text injector: puts a transcript into the focused application by setting
 * the clipboard and sending the paste keystroke, falling back to typing the text.
 *
 * The operating system's answers (whether the native clipboard call worked, the
 * exit codes of PowerShell, pbcopy and the Linux clipboard tools, whether the
 * keystrokes could be sent) are parameters; what the injector did is kept as a
 * log of actions.
 */
module TextInjection {
  import opened Wrappers
  import opened Text

  // ---------------------------------------------------------------- PowerShell escaping

  /** The characters PowerShell interprets inside a double-quoted string. */
  predicate IsPsSpecial(c: char) {
    c == '`' || c == '"' || c == '$'
  }

  /** The escape of `Set-Clipboard -Value "..."`: backticks first, then quotes and dollars. */
  function PsEscape(text: string): (r: string)
    ensures (forall i :: 0 <= i < |text| ==> !IsPsSpecial(text[i])) ==> r == text
  {
    Replace(Replace(Replace(text, '`', "``"), '"', "`\""), '$', "`$")
  }

  /** The escape of one character: a backtick before each special character. */
  function EscapeChar(c: char): (r: string)
    ensures IsPsSpecial(c) ==> r == ['`', c]
    ensures !IsPsSpecial(c) ==> r == [c]
  {
    if IsPsSpecial(c) then ['`', c] else [c]
  }

  /** The escape character by character: what the chain of replacements is meant to compute. */
  function EscapeEach(text: string): (r: string)
    ensures |r| >= |text|
  {
    if text == [] then [] else EscapeChar(text[0]) + EscapeEach(text[1..])
  }

  lemma {:induction false} EscapeEachAppend(a: string, b: string)
    ensures EscapeEach(a + b) == EscapeEach(a) + EscapeEach(b)
  {
    if a != [] {
      assert (a + b)[1..] == a[1..] + b;
      EscapeEachAppend(a[1..], b);
    } else {
      assert a + b == b;
    }
  }

  lemma PsEscapeAppend(a: string, b: string)
    ensures PsEscape(a + b) == PsEscape(a) + PsEscape(b)
  {
    var a1, b1 := Replace(a, '`', "``"), Replace(b, '`', "``");
    ReplaceAppend(a, b, '`', "``");
    var a2, b2 := Replace(a1, '"', "`\""), Replace(b1, '"', "`\"");
    ReplaceAppend(a1, b1, '"', "`\"");
    ReplaceAppend(a2, b2, '$', "`$");
  }

  lemma PsEscapeChar(c: char)
    ensures PsEscape([c]) == EscapeChar(c)
  {
    if c == '`' {
      assert Replace([c], '`', "``") == "``";
      assert Replace("``", '"', "`\"") == "``";
      assert Replace("``", '$', "`$") == "``";
    } else if c == '"' {
      assert Replace([c], '`', "``") == [c];
      assert Replace([c], '"', "`\"") == "`\"";
      assert Replace("`\"", '$', "`$") == "`\"";
    } else if c == '$' {
      assert Replace([c], '`', "``") == [c];
      assert Replace([c], '"', "`\"") == [c];
      assert Replace([c], '$', "`$") == "`$";
    } else {
      assert Replace([c], '`', "``") == [c];
      assert Replace([c], '"', "`\"") == [c];
      assert Replace([c], '$', "`$") == [c];
    }
  }

  /**
   * Escaping backticks first means the backticks the later steps insert are never
   * doubled: the chain escapes each character on its own.
   */
  lemma {:induction false} PsEscapeIsPerCharacter(text: string)
    ensures PsEscape(text) == EscapeEach(text)
  {
    if text != [] {
      assert text == [text[0]] + text[1..];
      PsEscapeAppend([text[0]], text[1..]);
      PsEscapeChar(text[0]);
      PsEscapeIsPerCharacter(text[1..]);
    }
  }

  /** The typographic double quotes, which PowerShell accepts as string delimiters. */
  predicate IsTypographicQuote(c: char) {
    c == '\U{201C}' || c == '\U{201D}' || c == '\U{201E}'
  }

  /** Every character that opens or closes a double-quoted PowerShell string. */
  predicate IsPsQuote(c: char) {
    c == '"' || IsTypographicQuote(c)
  }

  /** A character PowerShell takes literally in a double-quoted string. */
  predicate IsPsLiteral(c: char) {
    !IsPsSpecial(c) && !IsPsQuote(c)
  }

  /** The character `` `c `` stands for in Windows PowerShell 5.1: the eight control escapes, else `c`. */
  function PsEscapeCode(c: char): (r: char)
    ensures c !in "0abfnrtv" ==> r == c
  {
    match c
    case '0' => '\0'
    case 'a' => '\U{7}'
    case 'b' => '\U{8}'
    case 'f' => '\U{C}'
    case 'n' => '\n'
    case 'r' => '\r'
    case 't' => '\t'
    case 'v' => '\U{B}'
    case _ => c
  }

  /**
   * The value PowerShell reads from the body `s` of a double-quoted string, or None when
   * the body is not read literally to its end: an unescaped quote character (straight or
   * typographic) ends the string there, an unescaped `$` expands a variable, and a final
   * backtick escapes the closing quote.
   */
  function PsRead(s: string): (r: Option<string>)
    ensures r.Some? ==> |r.value| <= |s|
    ensures (forall i :: 0 <= i < |s| ==> IsPsLiteral(s[i])) ==> r == Some(s)
    decreases |s|
  {
    if s == [] then Some([])
    else if s[0] == '`' then
      if |s| == 1 then None
      else
        var rest := PsRead(s[2..]);
        if rest.Some? then Some([PsEscapeCode(s[1])] + rest.value) else None
    else if s[0] == '$' || IsPsQuote(s[0]) then None
    else
      var rest := PsRead(s[1..]);
      assert (forall i :: 0 <= i < |s| ==> IsPsLiteral(s[i])) ==> rest == Some(s[1..]) by {
        if forall i :: 0 <= i < |s| ==> IsPsLiteral(s[i]) {
          assert forall i :: 0 <= i < |s| - 1 ==> s[1..][i] == s[i + 1];
        }
      }
      assert [s[0]] + s[1..] == s;
      if rest.Some? then Some([s[0]] + rest.value) else None
  }

  /** PowerShell reads back exactly the escaped text, when the text holds no typographic quote. */
  lemma PsEscapeRoundTrip(text: string)
    requires forall i :: 0 <= i < |text| ==> !IsTypographicQuote(text[i])
    ensures PsRead(PsEscape(text)) == Some(text)
  {
    PsEscapeIsPerCharacter(text);
    EachRoundTrip(text);
  }

  lemma {:induction false} EachRoundTrip(text: string)
    requires forall i :: 0 <= i < |text| ==> !IsTypographicQuote(text[i])
    ensures PsRead(EscapeEach(text)) == Some(text)
  {
    if text != [] {
      var e := EscapeEach(text);
      var rest := EscapeEach(text[1..]);
      assert forall i :: 0 <= i < |text| - 1 ==> text[1..][i] == text[i + 1];
      EachRoundTrip(text[1..]);
      if IsPsSpecial(text[0]) {
        assert e == ['`', text[0]] + rest;
        assert e[2..] == rest;
      } else {
        assert e == [text[0]] + rest;
        assert e[1..] == rest;
      }
      assert text == [text[0]] + text[1..];
    }
  }

  /**
   * The chain at text_injector.py:210 leaves typographic quotes unescaped, so a text
   * holding one never reaches the clipboard as written.
   */
  lemma {:induction false} TypographicQuoteBreaks(text: string, k: int)
    requires 0 <= k < |text| && IsTypographicQuote(text[k])
    ensures PsRead(PsEscape(text)).None?
  {
    PsEscapeIsPerCharacter(text);
    EachBreaks(text, k);
  }

  lemma {:induction false} EachBreaks(text: string, k: int)
    requires 0 <= k < |text| && IsTypographicQuote(text[k])
    ensures PsRead(EscapeEach(text)).None?
  {
    var e := EscapeEach(text);
    var rest := EscapeEach(text[1..]);
    if k > 0 {
      EachBreaks(text[1..], k - 1);
    }
    if IsPsSpecial(text[0]) {
      assert e == ['`', text[0]] + rest;
      assert e[2..] == rest;
    } else {
      assert e == [text[0]] + rest;
      assert e[1..] == rest;
    }
  }

  /** The escape that also prefixes each typographic quote with a backtick. */
  function PsEscapeQuotes(text: string): (r: string)
    ensures |r| >= |text|
  {
    if text == [] then []
    else (if IsPsSpecial(text[0]) || IsPsQuote(text[0]) then ['`', text[0]] else [text[0]])
         + PsEscapeQuotes(text[1..])
  }

  /** With the typographic quotes escaped too, PowerShell reads back every text. */
  lemma {:induction false} PsEscapeQuotesRoundTrip(text: string)
    ensures PsRead(PsEscapeQuotes(text)) == Some(text)
  {
    if text != [] {
      var e := PsEscapeQuotes(text);
      var rest := PsEscapeQuotes(text[1..]);
      PsEscapeQuotesRoundTrip(text[1..]);
      if IsPsSpecial(text[0]) || IsPsQuote(text[0]) {
        assert e == ['`', text[0]] + rest;
        assert e[2..] == rest;
      } else {
        assert e == [text[0]] + rest;
        assert e[1..] == rest;
      }
      assert text == [text[0]] + text[1..];
    }
  }

  /** On text without typographic quotes the corrected escape is the chain of the source. */
  lemma {:induction false} PsEscapeQuotesAgrees(text: string)
    requires forall i :: 0 <= i < |text| ==> !IsTypographicQuote(text[i])
    ensures PsEscapeQuotes(text) == PsEscape(text)
  {
    PsEscapeIsPerCharacter(text);
    EachAgrees(text);
  }

  lemma {:induction false} EachAgrees(text: string)
    requires forall i :: 0 <= i < |text| ==> !IsTypographicQuote(text[i])
    ensures PsEscapeQuotes(text) == EscapeEach(text)
  {
    if text != [] {
      assert forall i :: 0 <= i < |text| - 1 ==> text[1..][i] == text[i + 1];
      EachAgrees(text[1..]);
    }
  }

  /** A double quote in the escaped text is always escaped by the backtick before it. */
  lemma {:induction false} EscapedQuotesArePrefixed(text: string, i: nat)
    requires i < |EscapeEach(text)| && EscapeEach(text)[i] == '"'
    ensures i > 0 && EscapeEach(text)[i - 1] == '`'
  {
    var rest := EscapeEach(text[1..]);
    var head := EscapeChar(text[0]);
    assert EscapeEach(text) == head + rest;
    if i >= |head| {
      assert rest[i - |head|] == '"';
      EscapedQuotesArePrefixed(text[1..], i - |head|);
      if i - |head| > 0 {
        assert EscapeEach(text)[i - 1] == rest[i - |head| - 1];
      }
    }
  }

  /** The PowerShell command that sets the clipboard. */
  function PowerShellCommand(text: string): (cmd: seq<string>)
    ensures |cmd| == 4 && cmd[3] == "Set-Clipboard -Value \"" + PsEscape(text) + "\""
  {
    ["powershell", "-NoProfile", "-Command", "Set-Clipboard -Value \"" + PsEscape(text) + "\""]
  }

  // ---------------------------------------------------------------- clipboard

  /** The Linux clipboard tools, in the order they are tried. */
  const LinuxClipboardCommands: seq<seq<string>> :=
    [["xclip", "-selection", "clipboard"], ["xsel", "--clipboard", "--input"], ["wl-copy"]]

  /** Runs a command with the text on its standard input: its exit code, or None when it raised. */
  type Runner = seq<string> -> Option<int>

  /** The index of the first command that exits with 0. */
  function FirstSuccess(cmds: seq<seq<string>>, run: Runner): (r: Option<nat>)
    ensures r.Some? ==> r.value < |cmds| && run(cmds[r.value]) == Some(0)
                        && forall j :: 0 <= j < r.value ==> run(cmds[j]) != Some(0)
    ensures r.None? ==> forall j :: 0 <= j < |cmds| ==> run(cmds[j]) != Some(0)
  {
    if cmds == [] then None
    else if run(cmds[0]) == Some(0) then Some(0)
    else
      var rest := FirstSuccess(cmds[1..], run);
      if rest.Some? then Some(rest.value + 1) else None
  }

  /**
   * `_set_clipboard_linux`: tries each tool in turn and stops at the first zero
   * exit. `tried` is the commands it ran.
   */
  method SetClipboardLinux(run: Runner) returns (ok: bool, tried: seq<seq<string>>)
    ensures var first := FirstSuccess(LinuxClipboardCommands, run);
            && (ok <==> first.Some?)
            && tried == if first.Some? then LinuxClipboardCommands[..first.value + 1]
                        else LinuxClipboardCommands
  {
    var cmds := LinuxClipboardCommands;
    tried := [];
    var i := 0;
    while i < |cmds|
      invariant 0 <= i <= |cmds| && tried == cmds[..i]
      invariant forall j :: 0 <= j < i ==> run(cmds[j]) != Some(0)
    {
      tried := tried + [cmds[i]];
      if run(cmds[i]) == Some(0) {
        FirstSuccessIs(cmds, run, i);
        return true, tried;
      }
      i := i + 1;
    }
    assert tried == cmds;
    return false, tried;
  }

  lemma {:induction false} FirstSuccessIs(cmds: seq<seq<string>>, run: Runner, i: nat)
    requires i < |cmds| && run(cmds[i]) == Some(0)
    requires forall j :: 0 <= j < i ==> run(cmds[j]) != Some(0)
    ensures FirstSuccess(cmds, run) == Some(i)
  {
    if i > 0 {
      FirstSuccessIs(cmds[1..], run, i - 1);
    }
  }

  /** The outcome of the Windows native clipboard calls. */
  datatype NativeClipboard =
    | NativeSet        // the text was put on the clipboard
    | NativeFailed     // allocation, locking or SetClipboardData failed
    | NativeUnavailable  // OpenClipboard failed or the call raised: PowerShell is tried

  /** What the platform's clipboard mechanisms answer. */
  datatype ClipboardProbe = ClipboardProbe(
    native: NativeClipboard, powershellExit: Option<int>, pbcopyExit: Option<int>, run: Runner)

  /** `_set_clipboard` on Windows and macOS; Linux is the loop above. */
  function SetClipboardOther(system: string, p: ClipboardProbe): (ok: bool)
    requires system == "Windows" || system == "Darwin"
    ensures system == "Darwin" ==> (ok <==> p.pbcopyExit == Some(0))
    ensures system == "Windows" ==>
              (ok <==> p.native.NativeSet? || (p.native.NativeUnavailable? && p.powershellExit == Some(0)))
  {
    if system == "Windows" then
      match p.native
      case NativeSet => true
      case NativeFailed => false
      case NativeUnavailable => p.powershellExit == Some(0)
    else p.pbcopyExit == Some(0)
  }

  /** Whether `_set_clipboard` succeeds on this platform. */
  function ClipboardSet(system: string, p: ClipboardProbe): (ok: bool)
    ensures system == "Windows" || system == "Darwin" ==> ok == SetClipboardOther(system, p)
    ensures system != "Windows" && system != "Darwin" ==>
              (ok <==> FirstSuccess(LinuxClipboardCommands, p.run).Some?)
  {
    if system == "Windows" || system == "Darwin" then SetClipboardOther(system, p)
    else FirstSuccess(LinuxClipboardCommands, p.run).Some?
  }

  /** `_set_clipboard`: the native or command-line mechanism of the platform. */
  method SetClipboard(system: string, p: ClipboardProbe) returns (ok: bool)
    ensures ok == ClipboardSet(system, p)
  {
    if system == "Windows" || system == "Darwin" {
      ok := SetClipboardOther(system, p);
    } else {
      var tried;
      ok, tried := SetClipboardLinux(p.run);
    }
  }

  // ---------------------------------------------------------------- the injector

  /** The modifier of the paste keystroke: Cmd+V on macOS, Ctrl+V elsewhere. */
  function PasteModifier(system: string): (m: string)
    ensures m == (if system == "Darwin" then "cmd" else "ctrl")
  {
    if system == "Darwin" then "cmd" else "ctrl"
  }

  /** What the injector did to the desktop. */
  datatype Action = PutOnClipboard(text: string) | Paste(modifier: string) | TypeKeys(text: string)

  /** The result of one injection attempt and the actions it took. */
  datatype Attempt = Attempt(ok: bool, acts: seq<Action>)

  /**
   * One attempt at injecting `t`: paste when the clipboard can be set, otherwise
   * (or in keyboard mode) type it.
   */
  function Inject(system: string, useClipboard: bool, t: string, p: ClipboardProbe,
                  pasteOk: bool, keyboardOk: bool): (a: Attempt)
    ensures useClipboard && ClipboardSet(system, p) ==>
              a == Attempt(pasteOk, [PutOnClipboard(t), Paste(PasteModifier(system))])
    ensures !(useClipboard && ClipboardSet(system, p)) ==> a == Attempt(keyboardOk, [TypeKeys(t)])
  {
    if useClipboard && ClipboardSet(system, p) then
      Attempt(pasteOk, [PutOnClipboard(t), Paste(PasteModifier(system))])
    else Attempt(keyboardOk, [TypeKeys(t)])
  }

  class TextInjector {
    const system: string
    const hasOnComplete: bool
    var useClipboard: bool
    var isTyping: bool
    /** The texts passed to `on_complete`, in order. */
    var completed: seq<string>
    var actions: seq<Action>

    constructor(system: string, hasOnComplete: bool, useClipboard: bool)
      ensures this.system == system && this.hasOnComplete == hasOnComplete
      ensures this.useClipboard == useClipboard && !isTyping
      ensures completed == [] && actions == []
    {
      this.system := system;
      this.hasOnComplete := hasOnComplete;
      this.useClipboard := useClipboard;
      isTyping := false;
      completed := [];
      actions := [];
    }

    /** Types the text with simulated keystrokes; `keyboardOk` says whether that worked. */
    method InjectViaKeyboard(text: string, keyboardOk: bool) returns (ok: bool)
      modifies this`actions
      ensures ok == keyboardOk && actions == old(actions) + [TypeKeys(text)]
    {
      actions := actions + [TypeKeys(text)];
      ok := keyboardOk;
    }

    /**
     * Sets the clipboard and sends the paste keystroke; when the clipboard cannot
     * be set the text is typed instead.
     */
    method InjectViaClipboard(text: string, p: ClipboardProbe, pasteOk: bool, keyboardOk: bool)
      returns (ok: bool)
      modifies this`actions
      ensures var a := Inject(system, true, text, p, pasteOk, keyboardOk);
              ok == a.ok && actions == old(actions) + a.acts
    {
      var isSet := SetClipboard(system, p);
      if !isSet {
        ok := InjectViaKeyboard(text, keyboardOk);
        return;
      }
      actions := actions + [PutOnClipboard(text), Paste(PasteModifier(system))];
      ok := pasteOk;
    }

    /**
     * Injecting `t` from the state (`acts0`, `done0`) reports `ok` and leaves
     * (`acts`, `done`): the actions of the attempt, and `t` passed to `on_complete`
     * only on success.
     */
    ghost predicate Delivered(acts0: seq<Action>, done0: seq<string>, t: string, p: ClipboardProbe,
                              pasteOk: bool, keyboardOk: bool, ok: bool, acts: seq<Action>, done: seq<string>)
      reads this`useClipboard
    {
      var a := Inject(system, useClipboard, t, p, pasteOk, keyboardOk);
      ok == a.ok && acts == acts0 + a.acts && done == done0 + (if hasOnComplete && ok then [t] else [])
    }

    /** The injection proper: by clipboard or keyboard, then `on_complete` on success. */
    method Deliver(t: string, p: ClipboardProbe, pasteOk: bool, keyboardOk: bool) returns (ok: bool)
      modifies this`actions, this`completed
      ensures Delivered(old(actions), old(completed), t, p, pasteOk, keyboardOk, ok, actions, completed)
    {
      if useClipboard {
        ok := InjectViaClipboard(t, p, pasteOk, keyboardOk);
      } else {
        ok := InjectViaKeyboard(t, keyboardOk);
      }
      if hasOnComplete && ok {
        completed := completed + [t];
      }
    }

    /**
     * `inject_text`: blank text succeeds without doing anything; otherwise the
     * stripped text is injected, `on_complete` hears of it only on success, and the
     * typing flag is clear again afterwards.
     */
    method InjectText(text: string, p: ClipboardProbe, pasteOk: bool, keyboardOk: bool)
      returns (ok: bool)
      modifies this
      ensures var t := Strip(text);
              && useClipboard == old(useClipboard)
              && (t == [] ==>
                    ok && actions == old(actions) && completed == old(completed) && isTyping == old(isTyping))
              && (t != [] ==>
                    !isTyping && Delivered(old(actions), old(completed), t, p, pasteOk, keyboardOk,
                                           ok, actions, completed))
    {
      var t := Strip(text);
      if t == [] {
        return true;
      }
      isTyping := true;
      ok := Deliver(t, p, pasteOk, keyboardOk);
      isTyping := false;
    }

    method SetUseClipboard(useClipboard: bool)
      modifies this`useClipboard
      ensures this.useClipboard == useClipboard
    {
      this.useClipboard := useClipboard;
    }
  }

  /** What is injected has no surrounding whitespace and is never empty. */
  lemma InjectedTextIsStripped(text: string)
    requires !IsBlank(text)
    ensures Strip(text) != [] && !IsSpace(Strip(text)[0]) && !IsSpace(Strip(text)[|Strip(text)| - 1])
  {
    StripEmptyIffBlank(text);
  }
}
