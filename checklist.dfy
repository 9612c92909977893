/**
  The checklist transform: a comma-separated list becomes one line per item,
  each item preceded by a ballot box and a space.
 */
module Checklist {

  /** U+2610 BALLOT BOX. */
  const BallotBox: char := '\U{2610}'

  /** What goes in front of every item. */
  const ItemPrefix: string := [BallotBox, ' ']

  /**
    Splits `s` at every `sep`, keeping empty pieces, as a string split on a
    single-character separator does: "" gives [""], "a,,b" gives ["a", "", "b"].
   */
  function Split(s: string, sep: char): (parts: seq<string>)
    ensures |parts| >= 1
    ensures forall i :: 0 <= i < |parts| ==> sep !in parts[i]
    decreases |s|
  {
    if s == [] then [""]
    else
      var rest := Split(s[1..], sep);
      if s[0] == sep then [""] + rest
      else [[s[0]] + rest[0]] + rest[1..]
  }

  /** Joins `parts` with `sep` between neighbours; no parts give the empty string. */
  function Join(parts: seq<string>, sep: char): (s: string)
    ensures |parts| >= 1 ==> parts[0] <= s
    ensures |parts| == 1 ==> s == parts[0]
  {
    if |parts| == 0 then ""
    else if |parts| == 1 then parts[0]
    else parts[0] + [sep] + Join(parts[1..], sep)
  }

  /** Puts the ballot box and a space in front of every item. */
  function Boxed(items: seq<string>): (lines: seq<string>)
    ensures |lines| == |items|
    ensures forall i :: 0 <= i < |items| ==> lines[i] == ItemPrefix + items[i]
  {
    if items == [] then [] else [ItemPrefix + items[0]] + Boxed(items[1..])
  }

  /** The text handed to the note when a checklist is asked for. */
  function Checklist(input: string): (text: string)
    ensures ItemPrefix <= text
  {
    Join(Boxed(Split(input, ',')), '\n')
  }

  /** A split has one piece more than the input has separators. */
  lemma {:induction false} SplitCount(s: string, sep: char)
    ensures |Split(s, sep)| == multiset(s)[sep] + 1
    decreases |s|
  {
    if s != [] {
      SplitCount(s[1..], sep);
      assert s == [s[0]] + s[1..];
    }
  }

  /** Joining the pieces of a split with the same separator gives back the input. */
  lemma {:induction false} JoinSplit(s: string, sep: char)
    ensures Join(Split(s, sep), sep) == s
    decreases |s|
  {
    if s != [] {
      JoinSplit(s[1..], sep);
      var rest := Split(s[1..], sep);
      if s[0] == sep {
        assert ([""] + rest)[1..] == rest;
      } else {
        var parts := Split(s, sep);
        assert parts[0] == [s[0]] + rest[0];
        assert parts[1..] == rest[1..];
        if |rest| > 1 {
          assert rest == [rest[0]] + rest[1..];
        }
      }
    }
  }

  /** A string without the separator is a single piece. */
  lemma {:induction false} SplitWithoutSeparator(s: string, sep: char)
    requires sep !in s
    ensures Split(s, sep) == [s]
    decreases |s|
  {
    if s != [] {
      SplitWithoutSeparator(s[1..], sep);
      assert [s[0]] + s[1..] == s;
    }
  }

  /** A separator after a piece without separators starts a new piece. */
  lemma {:induction false} SplitAfterPiece(a: string, sep: char, b: string)
    requires sep !in a
    ensures Split(a + [sep] + b, sep) == [a] + Split(b, sep)
    decreases |a|
  {
    var s := a + [sep] + b;
    if a == [] {
      assert s[1..] == b;
    } else {
      SplitAfterPiece(a[1..], sep, b);
      assert s[1..] == a[1..] + [sep] + b;
      assert [a[0]] + a[1..] == a;
    }
  }

  /** Splitting a join of pieces without the separator gives back the pieces. */
  lemma {:induction false} SplitJoin(parts: seq<string>, sep: char)
    requires |parts| >= 1
    requires forall i :: 0 <= i < |parts| ==> sep !in parts[i]
    ensures Split(Join(parts, sep), sep) == parts
    decreases |parts|
  {
    if |parts| == 1 {
      SplitWithoutSeparator(parts[0], sep);
    } else {
      SplitJoin(parts[1..], sep);
      SplitAfterPiece(parts[0], sep, Join(parts[1..], sep));
      assert [parts[0]] + parts[1..] == parts;
    }
  }

  /** A character absent from the input is absent from every piece of its split. */
  lemma {:induction false} SplitKeepsAbsentCharOut(s: string, sep: char, c: char)
    requires c !in s
    ensures forall i :: 0 <= i < |Split(s, sep)| ==> c !in Split(s, sep)[i]
    decreases |s|
  {
    if s != [] {
      SplitKeepsAbsentCharOut(s[1..], sep, c);
    }
  }

  /**
    For input without line breaks, the checklist's lines are exactly the
    comma-separated items, in order, each behind the ballot box and a space;
    so k commas give k + 1 lines.
   */
  lemma ChecklistLines(input: string)
    requires '\n' !in input
    ensures Split(Checklist(input), '\n') == Boxed(Split(input, ','))
    ensures |Split(Checklist(input), '\n')| == multiset(input)[','] + 1
  {
    var items := Split(input, ',');
    SplitKeepsAbsentCharOut(input, ',', '\n');
    var lines := Boxed(items);
    forall i | 0 <= i < |lines|
      ensures '\n' !in lines[i]
    {
      assert lines[i] == ItemPrefix + items[i];
      assert '\n' !in ItemPrefix;
    }
    SplitJoin(lines, '\n');
    SplitCount(input, ',');
  }

  /**
    The boxed items, before they are joined, hold one entry per comma-separated
    item of the input: the ballot box and a space followed by that item verbatim.
   */
  lemma ChecklistKeepsItems(input: string)
    ensures var items := Split(input, ',');
            var lines := Boxed(items);
            |lines| == |items|
            && forall i :: 0 <= i < |lines| ==>
                 lines[i][..|ItemPrefix|] == ItemPrefix && lines[i][|ItemPrefix|..] == items[i]
  {
  }

  /** Empty input gives the single line holding the ballot box and a space. */
  lemma EmptyChecklist()
    ensures Checklist("") == [BallotBox, ' ']
  {
  }

  /** Three items without commas become three boxed lines. */
  lemma {:induction false} ThreeItemChecklist(a: string, b: string, c: string)
    requires ',' !in a && ',' !in b && ',' !in c
    ensures Checklist(a + [','] + b + [','] + c)
         == ItemPrefix + a + ['\n'] + ItemPrefix + b + ['\n'] + ItemPrefix + c
  {
    var items := [a, b, c];
    assert items[1..] == [b, c] && items[1..][1..] == [c];
    assert Join(items[1..], ',') == b + [','] + c;
    assert Join(items, ',') == a + [','] + b + [','] + c;
    SplitJoin(items, ',');
    var lines := Boxed(items);
    assert lines == [ItemPrefix + a, ItemPrefix + b, ItemPrefix + c];
    assert lines[1..] == [ItemPrefix + b, ItemPrefix + c] && lines[1..][1..] == [ItemPrefix + c];
    assert Join(lines[1..], '\n') == ItemPrefix + b + ['\n'] + ItemPrefix + c;
  }

  /**
    "milk,eggs,bread" becomes three boxed lines. The input is a parameter fixed
    by the requires clause so that the verifier does not unfold `Checklist` on
    the literal character by character.
   */
  lemma GroceryChecklist(input: string)
    requires input == "milk,eggs,bread"
    ensures Checklist(input) == "\U{2610} milk\n\U{2610} eggs\n\U{2610} bread"
  {
    var items := "milk" + [','] + "eggs" + [','] + "bread";
    assert input == items;
    ThreeItemChecklist("milk", "eggs", "bread");
    assert Checklist(input) == ItemPrefix + "milk" + ['\n'] + ItemPrefix + "eggs" + ['\n'] + ItemPrefix + "bread";
  }
}
