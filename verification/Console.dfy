/** Numbers and lines on the console. */
module Console {
  import opened Utils

  const DELETE_KEY := 127 as char
  const ENTER_KEY := 13 as char
  const BACKSPACE := 8 as char

  predicate IsDigit(c: char) {
    '0' <= c <= '9'
  }

  function Digit(d: nat): char
    requires d < 10
  {
    '0' + d as char
  }

  /** The number that a string of digits denotes. */
  function Decode(digits: string): nat {
    if digits == [] then 0
    else
      var n := |digits| - 1;
      10 * Decode(digits[..n]) + if IsDigit(digits[n]) then (digits[n] - '0') as nat else 0
  }

  lemma DecodeAppend(digits: string, d: nat)
    requires d < 10
    ensures Decode(digits + [Digit(d)]) == 10 * Decode(digits) + d
  {
    assert (digits + [Digit(d)])[..|digits|] == digits;
  }

  /** One more digit of a number, from the left. */
  lemma NextDigit(n: nat, p: nat, digits: string)
    requires p > 0 && Decode(digits) == n / (10 * p)
    ensures IsDigit(Digit(n / p % 10)) && Decode(digits + [Digit(n / p % 10)]) == n / p
  {
    DivideTwice(n, p);
    DecodeAppend(digits, n / p % 10);
  }

  /** What the loop of `print_uint64` has emitted when the weight is down to 10^k. */
  ghost predicate Emitted(number: nat, places: nat, k: int, out: string)
    requires -1 <= k <= places
  {
    && |out| == places - k
    && Decode(out) == number / Pow10(k + 1)
    && (forall i :: 0 <= i < |out| ==> IsDigit(out[i]))
    && (out != [] ==> out[0] == Digit(number / Pow10(places) % 10))
  }

  lemma NothingYet(number: nat, places: nat)
    requires number < Pow10(places + 1)
    ensures Emitted(number, places, places, "")
  {
    QuotientIs(number, Pow10(places + 1), 0, number);
  }

  /** The weight of place `k`; it is 0 once the units are done. */
  function WeightOf(k: int): (w: nat)
    requires k >= -1
    ensures w > 0 <==> k >= 0
    ensures k >= 0 ==> w / 10 == WeightOf(k - 1)
    decreases k
  {
    if k < 0 then 0 else Pow10(k)
  }

  lemma EmitOne(number: nat, places: nat, k: nat, out: string)
    requires k <= places && Emitted(number, places, k, out)
    ensures Emitted(number, places, k - 1, out + [Digit(number / Pow10(k) % 10)])
  {
    NextDigit(number, Pow10(k), out);
  }

  /** All digits are out: they denote the number, and the first is 0 for 0 only. */
  lemma AllEmitted(number: nat, places: nat, out: string)
    requires Emitted(number, places, -1, out) && number < Pow10(places + 1)
    requires places > 0 ==> Pow10(places) <= number
    ensures Decode(out) == number && |out| == places + 1
    ensures out[0] == '0' ==> number == 0 && |out| == 1
  {
    assert Pow10(0) == 1;
    var p := Pow10(places);
    LeadingDigit(number, p);
  }

  lemma LeadingDigit(n: nat, p: nat)
    requires p > 0 && n < 10 * p
    ensures n / p < 10 && (p <= n ==> n / p >= 1)
  {
    Quotient(n, p);
    TimesMonotone(p, 10, n / p);
  }

  /** `'0' + (number / weight) % 10`. */
  function DigitAt(number: uint64, weight: uint64): (c: char)
    requires weight != 0
    ensures c == Digit(number as nat / weight as nat % 10)
  {
    Digit((number / weight % 10) as nat)
  }

  /** `print_uint64`: the digits emitted denote the number, the first of several is not 0, and
      the given terminator follows. */
  method PrintUint64(number: uint64, end: char) returns (out: string)
    ensures |out| >= 2 && out[|out| - 1] == end
    ensures var digits := out[..|out| - 1];
      && (forall i :: 0 <= i < |digits| ==> IsDigit(digits[i]))
      && Decode(digits) == number as nat
      && (digits[0] == '0' ==> number == 0 && |digits| == 1)
  {
    var weight;
    ghost var k: int;
    weight, k := GetDecimalWeight(number);
    out := "";
    ghost var places := k;
    NothingYet(number as nat, k);
    while weight != 0
      invariant -1 <= k <= places && weight as int == WeightOf(k)
      invariant Emitted(number as nat, places, k, out)
      decreases k
    {
      out, weight := EmitDigit(number, weight, out, places, k);
      k := k - 1;
    }
    AllEmitted(number as nat, places, out);
    out := out + [end];
  }

  /** One round of the loop. */
  method EmitDigit(number: uint64, weight: uint64, out: string, ghost places: nat, ghost k: nat)
    returns (out': string, weight': uint64)
    requires k <= places && weight as int == WeightOf(k) && Emitted(number as nat, places, k, out)
    ensures weight' as int == WeightOf(k - 1) && Emitted(number as nat, places, k - 1, out')
  {
    EmitOne(number as nat, places, k, out);
    out' := out + [DigitAt(number, weight)];
    weight' := weight / 10;
  }

  // ---------- reading a line ----------

  /** A line being typed: Enter or the last place ends it. */
  datatype Edit = Edit(text: string, entered: bool)

  predicate Ended(e: Edit, maxLength: nat) {
    e.entered || |e.text| >= maxLength
  }

  function Press(e: Edit, key: char): Edit {
    if key == DELETE_KEY then e.(text := if e.text == "" then "" else e.text[..|e.text| - 1])
    else if key == ENTER_KEY then e.(entered := true)
    else e.(text := e.text + [key])
  }

  /** The keys up to Enter or full length, each one pushing a character or popping one. */
  function Typed(keys: seq<char>, maxLength: nat): Edit {
    if keys == [] then Edit("", false)
    else
      var e := Typed(keys[..|keys| - 1], maxLength);
      if Ended(e, maxLength) then e else Press(e, keys[|keys| - 1])
  }

  /** What one key puts on the console. */
  function EchoOf(e: Edit, key: char): string {
    if key == DELETE_KEY then if e.text == "" then "" else [BACKSPACE, ' ', BACKSPACE]
    else if key == ENTER_KEY then "\n"
    else [key]
  }

  function Echo(keys: seq<char>, maxLength: nat): string {
    if keys == [] then ""
    else
      var before := keys[..|keys| - 1];
      var e := Typed(before, maxLength);
      Echo(before, maxLength) + if Ended(e, maxLength) then "" else EchoOf(e, keys[|keys| - 1])
  }

  lemma TypedAppend(keys: seq<char>, key: char, maxLength: nat)
    ensures var e := Typed(keys, maxLength);
      && Typed(keys + [key], maxLength) == (if Ended(e, maxLength) then e else Press(e, key))
      && Echo(keys + [key], maxLength) == Echo(keys, maxLength) + if Ended(e, maxLength) then "" else EchoOf(e, key)
  {
    assert (keys + [key])[..|keys|] == keys;
  }

  /** Delete takes back the key before it, and does nothing to an empty line. */
  lemma DeleteUndoes(keys: seq<char>, key: char, maxLength: nat)
    requires key != DELETE_KEY && key != ENTER_KEY && |Typed(keys, maxLength).text| + 1 < maxLength
    requires !Typed(keys, maxLength).entered
    ensures Typed(keys + [key], maxLength).text == Typed(keys, maxLength).text + [key]
    ensures Typed(keys + [key, DELETE_KEY], maxLength) == Typed(keys, maxLength)
    ensures Typed(keys, maxLength).text == "" ==> Typed(keys + [DELETE_KEY], maxLength) == Typed(keys, maxLength)
  {
    TypedAppend(keys, key, maxLength);
    TypedAppend(keys, DELETE_KEY, maxLength);
    TypedAppend(keys + [key], DELETE_KEY, maxLength);
    assert keys + [key] + [DELETE_KEY] == keys + [key, DELETE_KEY];
  }

  /** No more than `maxLength` characters are ever kept. */
  lemma {:induction false} TypedFits(keys: seq<char>, maxLength: nat)
    ensures |Typed(keys, maxLength).text| <= maxLength
  {
    if keys != [] { TypedFits(keys[..|keys| - 1], maxLength); }
  }

  /** The string that a caller finds in a buffer: what is before the first terminator. */
  function CString(buffer: seq<char>): string {
    if buffer == [] || buffer[0] == '\0' then "" else [buffer[0]] + CString(buffer[1..])
  }

  lemma {:induction false} CutAtTerminator(buffer: seq<char>, n: nat)
    requires n < |buffer| && buffer[n] == '\0'
    ensures CString(buffer) == CString(buffer[..n])
  {
    if n > 0 && buffer[0] != '\0' {
      CutAtTerminator(buffer[1..], n - 1);
      assert buffer[1..][..n - 1] == buffer[..n][1..];
    }
  }

  lemma {:induction false} WholeIffNoTerminator(text: string)
    ensures CString(text) == text <==> '\0' !in text
  {
    if text != [] {
      WholeIffNoTerminator(text[1..]);
      assert text == [text[0]] + text[1..];
      if text[0] != '\0' { assert CString(text)[1..] == CString(text[1..]); }
    }
  }

  /** `get_string`, fed with `keys`: it ends at Enter or full length, or still waits for a key
      when they are used up.  The caller gets the buffer alone and reads it up to the first
      terminator; `length` is where the loop put the last one. */
  method GetString(keys: seq<char>, maxLength: nat)
    returns (str: array<char>, used: nat, echo: string, ghost length: nat)
    ensures fresh(str) && str.Length == maxLength + 1 && length <= maxLength && used <= |keys|
    ensures var e := Typed(keys, maxLength);
      && str[..length] == e.text && echo == Echo(keys, maxLength)
      && e == Typed(keys[..used], maxLength) && (Ended(e, maxLength) || used == |keys|)
      && (Ended(e, maxLength) ==> str[length] == '\0' && CString(str[..]) == CString(e.text))
  {
    str := new char[maxLength + 1];
    str[maxLength] := '\0';
    used, echo := 0, "";
    var i: int := 0;
    ghost var edit := Edit("", false);
    while i < maxLength && used < |keys|
      invariant 0 <= i <= maxLength && used <= |keys| && !edit.entered && str[maxLength] == '\0'
      invariant edit.text == str[..i] && Reading(keys, used, maxLength, edit, echo)
      decreases |keys| - used
    {
      ReadOne(keys, used, maxLength, edit, echo);
      edit := Press(edit, keys[used]);
      var out, stop;
      i, out, stop := TakeKey(str, i, keys[used]);
      echo := echo + out;
      used := used + 1;
      if stop {
        break;
      }
      i := i + 1;
    }
    length := i;
    EndedStays(keys, used, maxLength);
    if Ended(edit, maxLength) { CutAtTerminator(str[..], length); }
    assert str[..][..length] == str[..length];
  }

  /** The keys before `used` have given the line and the output so far. */
  ghost predicate Reading(keys: seq<char>, used: nat, maxLength: nat, edit: Edit, echo: string)
    requires used <= |keys|
  {
    edit == Typed(keys[..used], maxLength) && echo == Echo(keys[..used], maxLength)
  }

  lemma ReadOne(keys: seq<char>, used: nat, maxLength: nat, edit: Edit, echo: string)
    requires used < |keys| && Reading(keys, used, maxLength, edit, echo) && !Ended(edit, maxLength)
    ensures Reading(keys, used + 1, maxLength, Press(edit, keys[used]), echo + EchoOf(edit, keys[used]))
  {
    assert keys[..used + 1] == keys[..used] + [keys[used]];
    TypedAppend(keys[..used], keys[used], maxLength);
  }

  /** The body of the loop: the place `i` is left at, before its increment. */
  method TakeKey(str: array<char>, i: nat, key: char) returns (i': int, out: string, stop: bool)
    requires i + 1 < str.Length
    modifies str
    ensures str[str.Length - 1] == old(str[str.Length - 1])
    ensures var e := Press(Edit(old(str[..i]), false), key);
      && stop == e.entered && out == EchoOf(Edit(old(str[..i]), false), key)
      && (if stop then i' == i && str[i] == '\0' && str[..i] == e.text
          else -1 <= i' <= i && str[..i' + 1] == e.text)
  {
    str[i] := key;
    out, stop, i' := "", false, i;
    assert str[..i] == old(str[..i]);
    if str[i] == DELETE_KEY {
      if i > 0 {
        out := [BACKSPACE, ' ', BACKSPACE];
      }
      i' := if i >= 2 then i - 2 else -1;
    } else if str[i] == ENTER_KEY {
      str[i] := '\0';
      out, stop := "\n", true;
    } else {
      out := [str[i]];
    }
  }

  /** Once the line has ended, further keys change nothing. */
  lemma {:induction false} EndedStays(keys: seq<char>, used: nat, maxLength: nat)
    requires used <= |keys| && (Ended(Typed(keys[..used], maxLength), maxLength) || used == |keys|)
    ensures Typed(keys, maxLength) == Typed(keys[..used], maxLength)
    ensures Echo(keys, maxLength) == Echo(keys[..used], maxLength)
  {
    if used == |keys| {
      assert keys[..used] == keys;
    } else {
      var front := keys[..|keys| - 1];
      assert front[..used] == keys[..used] && keys == front + [keys[|keys| - 1]];
      EndedStays(front, used, maxLength);
      TypedAppend(front, keys[|keys| - 1], maxLength);
    }
  }

  // ---------- what the caller sees ----------

  /** The character that key `i` pushed is not deleted by any later key. */
  ghost predicate Stays(keys: seq<char>, i: nat, maxLength: nat)
    requires i < |keys|
  {
    forall j :: i < j <= |keys| ==> |Typed(keys[..j], maxLength).text| > |Typed(keys[..i], maxLength).text|
  }

  lemma {:induction false} StaysInPlace(keys: seq<char>, i: nat, maxLength: nat)
    requires i < |keys| && Stays(keys, i, maxLength)
    ensures var p, text := |Typed(keys[..i], maxLength).text|, Typed(keys, maxLength).text;
      p < |text| && text[p] == keys[i]
  {
    var m := |keys| - 1;
    assert keys[..|keys|] == keys;
    if i < m {
      StaysInFront(keys, i, maxLength);
      StaysInPlace(keys[..m], i, maxLength);
      assert keys[..m][..i] == keys[..i];
    }
  }

  lemma StaysInFront(keys: seq<char>, i: nat, maxLength: nat)
    requires i < |keys| - 1
    ensures Stays(keys, i, maxLength) <==>
              Stays(keys[..|keys| - 1], i, maxLength)
              && |Typed(keys, maxLength).text| > |Typed(keys[..i], maxLength).text|
  {
    var front := keys[..|keys| - 1];
    assert forall j :: 0 <= j <= |front| ==> front[..j] == keys[..j];
    assert keys[..|keys|] == keys;
  }

  /** Every character of the text was pushed by a key that stays. */
  lemma {:induction false} PushedBy(keys: seq<char>, p: nat, maxLength: nat) returns (i: nat)
    requires p < |Typed(keys, maxLength).text|
    ensures i < |keys| && Stays(keys, i, maxLength) && keys[i] == Typed(keys, maxLength).text[p]
    ensures |Typed(keys[..i], maxLength).text| == p
  {
    var m := |keys| - 1;
    var front := keys[..m];
    assert keys[..|keys|] == keys;
    if p < |Typed(front, maxLength).text| {
      i := PushedBy(front, p, maxLength);
      assert front[..i] == keys[..i];
      StaysInFront(keys, i, maxLength);
    } else {
      i := m;
    }
  }

  lemma StaysWasRead(keys: seq<char>, i: nat, maxLength: nat)
    requires i < |keys| && Stays(keys, i, maxLength)
    ensures Read(keys, i, maxLength)
  {
    assert keys[..i + 1] == keys[..i] + [keys[i]];
    TypedAppend(keys[..i], keys[i], maxLength);
  }

  /** The caller's string is all that was typed exactly when no terminator among the keys stays; it
      is enough that none is read. */
  lemma StringIsWhole(keys: seq<char>, maxLength: nat)
    ensures CString(Typed(keys, maxLength).text) == Typed(keys, maxLength).text <==>
            forall i :: 0 <= i < |keys| && keys[i] == '\0' ==> !Stays(keys, i, maxLength)
    ensures (forall i :: 0 <= i < |keys| && keys[i] == '\0' ==> !Read(keys, i, maxLength)) ==>
              CString(Typed(keys, maxLength).text) == Typed(keys, maxLength).text
  {
    var text := Typed(keys, maxLength).text;
    WholeIffNoTerminator(text);
    if '\0' in text {
      var p :| 0 <= p < |text| && text[p] == '\0';
      var i := PushedBy(keys, p, maxLength);
    }
    forall i | 0 <= i < |keys| && keys[i] == '\0' && Stays(keys, i, maxLength)
      ensures '\0' in text
    {
      StaysInPlace(keys, i, maxLength);
    }
    forall i | 0 <= i < |keys| && Stays(keys, i, maxLength)
      ensures Read(keys, i, maxLength)
    {
      StaysWasRead(keys, i, maxLength);
    }
  }

  /** Two characters are typed, and the caller gets the empty string. */
  lemma TerminatorTyped()
    ensures var e := Typed(['\0', 'a', ENTER_KEY], 5);
      Ended(e, 5) && e.text == ['\0', 'a'] && CString(e.text) == ""
  {
    assert Typed([], 5) == Edit("", false);
    TypedAppend([], '\0', 5);
    TypedAppend(['\0'], 'a', 5);
    TypedAppend(['\0', 'a'], ENTER_KEY, 5);
    assert [] + ['\0'] == ['\0'] && ['\0'] + ['a'] == ['\0', 'a'];
    assert ['\0', 'a'] + [ENTER_KEY] == ['\0', 'a', ENTER_KEY];
    assert Typed(['\0'], 5) == Edit(['\0'], false) && Typed(['\0', 'a'], 5) == Edit(['\0', 'a'], false);
  }

  // ---------- the terminal ----------

  const TAB := '\t'
  const TAB_STOP := 8

  /** Delete, and the control codes of ISO 6429: they show nothing. */
  predicate IsControl(c: char) {
    c < ' ' || 127 as char <= c < 160 as char
  }

  /** A terminal line, as wide as it needs to be: backspace moves left, a tab to the next stop, a
      line feed starts a new line, and no other control character has an effect. */
  datatype Terminal = Terminal(above: seq<string>, line: string, cursor: nat)

  function Blanks(n: nat): string {
    seq(n, i => ' ')
  }

  function Show(t: Terminal, c: char): Terminal {
    if c == BACKSPACE then t.(cursor := if t.cursor > 0 then t.cursor - 1 else 0)
    else if c == '\n' then Terminal(t.above + [t.line], "", 0)
    else if c == TAB then t.(cursor := (t.cursor / TAB_STOP + 1) * TAB_STOP)
    else if IsControl(c) then t
    else if t.cursor < |t.line| then t.(line := t.line[t.cursor := c], cursor := t.cursor + 1)
    else t.(line := t.line + Blanks(t.cursor - |t.line|) + [c], cursor := t.cursor + 1)
  }

  function Replay(out: string): Terminal {
    if out == "" then Terminal([], "", 0) else Show(Replay(out[..|out| - 1]), out[|out| - 1])
  }

  /** The text, with nothing but blanks behind it. */
  ghost predicate Padded(line: string, text: string) {
    text <= line && forall i :: |text| <= i < |line| ==> line[i] == ' '
  }

  /** The terminal shows the text typed so far; after Enter, on the line above. */
  ghost predicate Shows(t: Terminal, e: Edit) {
    if e.entered then |t.above| == 1 && Padded(t.above[0], e.text) && t.line == ""
    else t.above == [] && t.cursor == |e.text| && Padded(t.line, e.text)
  }

  /** A key that is kept in the string but is not shown. */
  predicate Unseen(key: char) {
    IsControl(key) && key != DELETE_KEY && key != ENTER_KEY
  }

  lemma ReplayAppend(out: string, c: char)
    ensures Replay(out + [c]) == Show(Replay(out), c)
  {
    assert (out + [c])[..|out|] == out;
  }

  lemma KeyShown(out: string, e: Edit, key: char)
    requires Shows(Replay(out), e) && !e.entered
    ensures Shows(Replay(out + EchoOf(e, key)), Press(e, key)) <==> !Unseen(key)
  {
    if key == ENTER_KEY {
      ReplayAppend(out, '\n');
    } else if key != DELETE_KEY {
      ReplayAppend(out, key);
      CharacterShown(Replay(out), e, key);
    } else if e.text == "" {
      assert out + "" == out;
    } else {
      DeleteShown(out, e);
    }
  }

  lemma CharacterShown(t: Terminal, e: Edit, key: char)
    requires Shows(t, e) && !e.entered && key != DELETE_KEY && key != ENTER_KEY
    ensures Shows(Show(t, key), e.(text := e.text + [key])) <==> !IsControl(key)
  {
    if IsControl(key) {
      assert |e.text| < |t.line| ==> t.line[|e.text|] == ' ';
    } else if t.cursor == |t.line| {
      assert t.line == e.text && Show(t, key).line == e.text + [key];
    }
  }

  /** Back, a blank over the last character, and back again. */
  lemma DeleteShown(out: string, e: Edit)
    requires Shows(Replay(out), e) && !e.entered && e.text != ""
    ensures Shows(Replay(out + [BACKSPACE, ' ', BACKSPACE]), Press(e, DELETE_KEY))
  {
    var back := out + [BACKSPACE];
    ReplayAppend(out, BACKSPACE);
    ReplayAppend(back, ' ');
    ReplayAppend(back + [' '], BACKSPACE);
    assert out + [BACKSPACE, ' ', BACKSPACE] == back + [' '] + [BACKSPACE];
  }

  ghost predicate ShownAfter(keys: seq<char>, maxLength: nat) {
    Shows(Replay(Echo(keys, maxLength)), Typed(keys, maxLength))
  }

  /** Key `i` is read as part of the line. */
  predicate Read(keys: seq<char>, i: nat, maxLength: nat)
    requires i < |keys|
  {
    !Ended(Typed(keys[..i], maxLength), maxLength)
  }

  /** Now and after each of the keys before. */
  ghost predicate AlwaysShown(keys: seq<char>, maxLength: nat) {
    ShownAfter(keys, maxLength) && (keys != [] ==> AlwaysShown(keys[..|keys| - 1], maxLength))
  }

  ghost predicate NoneUnseen(keys: seq<char>, maxLength: nat) {
    forall i :: 0 <= i < |keys| && Read(keys, i, maxLength) ==> !Unseen(keys[i])
  }

  /** The screen follows the line at every moment, if and only if no control character but Delete
      and Enter is read: the others are kept in the string but not shown. */
  lemma {:induction false} EchoFaithful(keys: seq<char>, maxLength: nat)
    ensures AlwaysShown(keys, maxLength) <==> NoneUnseen(keys, maxLength)
  {
    if keys == [] {
    } else {
      var m := |keys| - 1;
      EchoFaithful(keys[..m], maxLength);
      UnseenSplit(keys, maxLength);
      if ShownAfter(keys[..m], maxLength) { LastKeyShown(keys, maxLength); }
    }
  }

  lemma UnseenSplit(keys: seq<char>, maxLength: nat)
    requires keys != []
    ensures var m := |keys| - 1;
      NoneUnseen(keys, maxLength) <==>
        NoneUnseen(keys[..m], maxLength) && (Read(keys, m, maxLength) ==> !Unseen(keys[m]))
  {
    var m := |keys| - 1;
    var front := keys[..m];
    assert forall i :: 0 <= i < m ==> front[..i] == keys[..i] && front[i] == keys[i];
    assert forall i :: 0 <= i < m ==> Read(front, i, maxLength) == Read(keys, i, maxLength);
  }

  lemma LastKeyShown(keys: seq<char>, maxLength: nat)
    requires keys != [] && ShownAfter(keys[..|keys| - 1], maxLength)
    ensures ShownAfter(keys, maxLength) <==> (Read(keys, |keys| - 1, maxLength) ==> !Unseen(keys[|keys| - 1]))
  {
    var m := |keys| - 1;
    var front, key := keys[..m], keys[m];
    assert keys == front + [key];
    TypedAppend(front, key, maxLength);
    if Read(keys, m, maxLength) {
      KeyShown(Echo(front, maxLength), Typed(front, maxLength), key);
    } else {
      assert Echo(keys, maxLength) == Echo(front, maxLength);
    }
  }

  /** A backspace typed after `a`: the string is two characters, the screen shows none. */
  lemma BackspaceNotShown()
    ensures var keys := ['a', BACKSPACE];
      Typed(keys, 5).text == keys && !ShownAfter(keys, 5) && Replay(Echo(keys, 5)).cursor == 0
  {
    var keys := ['a', BACKSPACE];
    assert Typed([], 5) == Edit("", false) && Echo([], 5) == "";
    TypedAppend([], 'a', 5);
    TypedAppend(['a'], BACKSPACE, 5);
    assert [] + ['a'] == ['a'] && ['a'] + [BACKSPACE] == keys && "" + ['a'] == ['a'];
    assert Typed(['a'], 5) == Edit(['a'], false);
    ReplayAppend("", 'a');
    ReplayAppend(['a'], BACKSPACE);
  }
}
