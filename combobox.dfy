/**
 * The searchable dropdown (app/components/ui/AnimatedCombobox.tsx): a
 * case-insensitive substring filter over the option list, and the component
 * state `isOpen` / `filteredOptions` that its handlers update.
 *
 * `options` and `value` are props owned by the parent, so they are passed to
 * the handlers that read them; `onChange` is modelled as the value a handler
 * returns.
 */
module Combobox {
  import opened Wrappers

  /** `toLowerCase` on one character, for ASCII letters. */
  function LowerChar(c: char): (l: char)
    ensures !('A' <= l <= 'Z')
    ensures !('A' <= c <= 'Z') ==> l == c
    ensures 'A' <= c <= 'Z' ==> 'a' <= l <= 'z' && l as int - c as int == 32
  {
    if 'A' <= c <= 'Z' then (c as int + 32) as char else c
  }

  function ToLower(s: string): (r: string)
    ensures |r| == |s|
    ensures forall i :: 0 <= i < |s| ==> r[i] == LowerChar(s[i])
  {
    if s == [] then [] else [LowerChar(s[0])] + ToLower(s[1..])
  }

  predicate StartsWith(s: string, prefix: string) {
    |prefix| <= |s| && s[..|prefix|] == prefix
  }

  /** `s.includes(sub)`: `sub` occurs in `s` at some position. */
  predicate Includes(s: string, sub: string)
    ensures Includes(s, sub) ==> |sub| <= |s|
    ensures sub == [] ==> Includes(s, sub)
  {
    StartsWith(s, sub) || (s != [] && Includes(s[1..], sub))
  }

  /** The option test of the filter at lines 44-46. */
  predicate Matches(option: string, typed: string) {
    Includes(ToLower(option), ToLower(typed))
  }

  /** `options.filter(opt => opt.toLowerCase().includes(typed.toLowerCase()))`. */
  function Filter(options: seq<string>, typed: string): (kept: seq<string>)
    ensures |kept| <= |options|
    ensures forall i :: 0 <= i < |kept| ==> kept[i] in options && Matches(kept[i], typed)
  {
    if options == [] then []
    else if Matches(options[0], typed) then [options[0]] + Filter(options[1..], typed)
    else Filter(options[1..], typed)
  }

  /** `a` is `b` with some elements dropped, the rest in their order. */
  predicate IsSubsequence<T(==)>(a: seq<T>, b: seq<T>) {
    if a == [] then true
    else if b == [] then false
    else (a[0] == b[0] && IsSubsequence(a[1..], b[1..])) || IsSubsequence(a, b[1..])
  }

  /** `sub` occurs in `s` starting at index `i`. */
  predicate OccursAt(s: string, sub: string, i: int) {
    0 <= i <= |s| - |sub| && s[i..i + |sub|] == sub
  }

  /** `Includes` agrees with the positional definition of a substring. */
  lemma {:induction false} IncludesIffOccurs(s: string, sub: string)
    ensures Includes(s, sub) <==> exists i :: OccursAt(s, sub, i)
  {
    if StartsWith(s, sub) {
      assert OccursAt(s, sub, 0);
    } else if s != [] {
      IncludesIffOccurs(s[1..], sub);
      if Includes(s[1..], sub) {
        var i :| OccursAt(s[1..], sub, i);
        assert s[1..][i..i + |sub|] == s[i + 1..i + 1 + |sub|];
        assert OccursAt(s, sub, i + 1);
      }
      if exists i :: OccursAt(s, sub, i) {
        var i :| OccursAt(s, sub, i);
        assert i != 0;
        assert s[1..][i - 1..i - 1 + |sub|] == s[i..i + |sub|];
        assert OccursAt(s[1..], sub, i - 1);
      }
    } else {
      assert forall i :: !OccursAt(s, sub, i);
    }
  }

  /**
   * The filter keeps, in their original order, exactly the options that
   * match: it is a subsequence of `options`, everything in it matches, and
   * every matching option occurs in it as often as in `options`.
   */
  lemma {:induction false} FilterCharacterisation(options: seq<string>, typed: string)
    ensures IsSubsequence(Filter(options, typed), options)
    ensures forall i :: 0 <= i < |Filter(options, typed)| ==> Matches(Filter(options, typed)[i], typed)
    ensures forall x :: Matches(x, typed) ==> multiset(Filter(options, typed))[x] == multiset(options)[x]
  {
    if options != [] {
      var rest := Filter(options[1..], typed);
      FilterCharacterisation(options[1..], typed);
      assert options == [options[0]] + options[1..];
      if Matches(options[0], typed) {
        assert Filter(options, typed) == [options[0]] + rest;
        assert ([options[0]] + rest)[1..] == rest;
      } else {
        assert Filter(options, typed) == rest;
        forall x | Matches(x, typed) ensures multiset(rest)[x] == multiset(options)[x] {
          assert x != options[0];
        }
      }
    }
  }

  /** Typing the empty string keeps every option. */
  lemma {:induction false} FilterEmptyQuery(options: seq<string>)
    ensures Filter(options, "") == options
  {
    if options != [] {
      FilterEmptyQuery(options[1..]);
    }
  }

  /** Folding the typed text to lower case first changes nothing. */
  lemma {:induction false} FilterIgnoresCase(options: seq<string>, typed: string)
    ensures Filter(options, typed) == Filter(options, ToLower(typed))
  {
    assert ToLower(ToLower(typed)) == ToLower(typed);
    if options != [] {
      FilterIgnoresCase(options[1..], typed);
    }
  }

  /** One row of the open dropdown: an option to pick, or the no-match notice. */
  datatype Entry = OptionEntry(option: string) | NoMatchEntry(typed: string)

  class ComboboxState {
    var isOpen: bool
    var filteredOptions: seq<string>

    /** Mount: closed, every option listed. */
    constructor (options: seq<string>)
      ensures !isOpen && filteredOptions == options
    {
      isOpen := false;
      filteredOptions := options;
    }

    /** `handleInputChange`: forward the typed text, filter, open. */
    method HandleInputChange(options: seq<string>, newValue: string) returns (emitted: string)
      modifies this
      ensures emitted == newValue
      ensures filteredOptions == Filter(options, newValue)
      ensures IsSubsequence(filteredOptions, options)
      ensures newValue == "" ==> filteredOptions == options
      ensures isOpen
    {
      emitted := newValue;
      filteredOptions := Filter(options, newValue);
      FilterCharacterisation(options, newValue);
      FilterEmptyQuery(options);
      isOpen := true;
    }

    /** `handleOptionSelect`: forward the option, close; the list is kept. */
    method HandleOptionSelect(option: string) returns (emitted: string)
      modifies this`isOpen
      ensures emitted == option && !isOpen
    {
      emitted := option;
      isOpen := false;
    }

    /** Focusing the input opens the dropdown. */
    method HandleFocus()
      modifies this`isOpen
      ensures isOpen
    {
      isOpen := true;
    }

    /** The chevron button flips the dropdown. */
    method HandleToggle()
      modifies this`isOpen
      ensures isOpen == !old(isOpen)
    {
      isOpen := !isOpen;
    }

    /**
     * What the dropdown shows for the parent's current `value`: nothing when
     * hidden, else the filtered options, or the single no-match row.
     */
    function Dropdown(value: string): (shown: Option<seq<Entry>>)
      reads this
      ensures shown.Some? <==> isOpen && (filteredOptions != [] || value != "")
      ensures shown.Some? && filteredOptions == [] ==> shown.value == [NoMatchEntry(value)]
      ensures shown.Some? && filteredOptions != [] ==>
        |shown.value| == |filteredOptions| &&
        forall i :: 0 <= i < |filteredOptions| ==> shown.value[i] == OptionEntry(filteredOptions[i])
    {
      if !(isOpen && (|filteredOptions| > 0 || value != "")) then None
      else if |filteredOptions| > 0 then Some(seq(|filteredOptions|, i requires 0 <= i < |filteredOptions| reads this => OptionEntry(filteredOptions[i])))
      else Some([NoMatchEntry(value)])
    }
  }
}
