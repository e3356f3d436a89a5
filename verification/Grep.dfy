/** The regular expression matcher of grep.c against a declarative meaning of its patterns. */
module Grep {

  /** A piece of a pattern: one character, any number of one, or the end of the text. '.' stands for every character. */
  datatype Item = One(c: char) | Star(c: char) | End

  function Items(re: string): seq<Item> {
    if re == [] then []
    else if |re| >= 2 && re[1] == '*' then [Star(re[0])] + Items(re[2..])
    else if re == "$" then [End]
    else [One(re[0])] + Items(re[1..])
  }

  /** How an item is written. */
  function Spelt(item: Item): string {
    match item
    case One(c) => [c]
    case Star(c) => [c, '*']
    case End => "$"
  }

  function Spell(items: seq<Item>): string { if items == [] then [] else Spelt(items[0]) + Spell(items[1..]) }

  /** The items are written `re`, a star belongs to the character before it wherever there is one, and a $ at the end,
      and only there, is the end of the text. */
  ghost predicate Reads(items: seq<Item>, re: string) {
    && Spell(items) == re
    && (forall i :: 0 <= i < |items| - 1 && items[i].One? ==> Spelt(items[i + 1])[0] != '*')
    && (forall i :: 0 <= i < |items| && items[i].End? ==> i == |items| - 1)
    && (items != [] ==> items[|items| - 1] != One('$'))
  }

  /** Every pattern has exactly one reading, and that is what the matcher sees in it. */
  lemma {:induction false} OneReading(items: seq<Item>, re: string)
    ensures Reads(items, re) <==> items == Items(re)
    decreases |re|
  {
    if re == [] {
      assert items != [] ==> |Spell(items)| > 0;
    } else {
      var n := if |re| >= 2 && re[1] == '*' then 2 else 1;
      if items == Items(re) { ItemsRead(re); }
      if Reads(items, re) {
        FirstRead(items, re);
        OneReading(items[1..], re[n..]);
      }
    }
  }

  /** The first item is read off the first characters, and the rest is read likewise. */
  lemma FirstRead(items: seq<Item>, re: string)
    requires Reads(items, re) && re != []
    ensures items != []
    ensures if |re| >= 2 && re[1] == '*' then items[0] == Star(re[0]) && Reads(items[1..], re[2..])
      else if re == "$" then items == [End]
      else items[0] == One(re[0]) && Reads(items[1..], re[1..])
  {
    var rest := items[1..];
    assert re == Spelt(items[0]) + Spell(rest);
    assert re[|Spelt(items[0])|..] == Spell(rest);
    if rest != [] {
      assert Spell(rest) == Spelt(rest[0]) + Spell(rest[1..]);
      assert rest[|rest| - 1] == items[|items| - 1];
    }
    forall i | 0 <= i < |rest| - 1 && rest[i].One? ensures Spelt(rest[i + 1])[0] != '*' {
      assert items[i + 1] == rest[i] && items[i + 2] == rest[i + 1];
    }
    forall i | 0 <= i < |rest| && rest[i].End? ensures i == |rest| - 1 { assert items[i + 1] == rest[i]; }
  }

  lemma {:induction false} ItemsRead(re: string)
    ensures Reads(Items(re), re)
    decreases |re|
  {
    if re == [] {
    } else if |re| >= 2 && re[1] == '*' {
      hide Reads;
      ItemsRead(re[2..]);
      ReadMore(Star(re[0]), Items(re[2..]), re[2..]);
      assert Spelt(Star(re[0])) + re[2..] == re;
    } else if re == "$" {
      assert Spell([End]) == "$" + Spell([]);
    } else {
      ItemsRead(re[1..]);
      if re[1..] != [] { Begins(re[1..]); }
      ReadMore(One(re[0]), Items(re[1..]), re[1..]);
      assert Spelt(One(re[0])) + re[1..] == re;
    }
  }

  /** An item is written with the character its pattern begins with. */
  lemma Begins(re: string)
    requires re != []
    ensures Items(re) != [] && Spelt(Items(re)[0])[0] == re[0]
  {}

  lemma ReadMore(item: Item, rest: seq<Item>, re: string)
    requires Reads(rest, re) && !item.End? && (rest == [] ==> item != One('$'))
    requires item.One? && rest != [] ==> Spelt(rest[0])[0] != '*'
    ensures Reads([item] + rest, Spelt(item) + re)
  {
    var items := [item] + rest;
    assert items[1..] == rest;
    forall i | 0 <= i < |items| - 1 && items[i].One? ensures Spelt(items[i + 1])[0] != '*' {
      if i > 0 { assert items[i] == rest[i - 1] && items[i + 1] == rest[i]; }
    }
  }

  predicate Fits(c: char, x: char) { c == '.' || c == x }

  /** The item accounts for exactly the characters text[a..b]. */
  ghost predicate Accounts(item: Item, text: string, a: nat, b: nat)
    requires a <= b <= |text|
  {
    match item
    case One(c) => b == a + 1 && Fits(c, text[a])
    case Star(c) => forall i :: a <= i < b ==> Fits(c, text[i])
    case End => a == b == |text|
  }

  /** The text is cut at `cuts` into one stretch for each item, from position `at` on. */
  ghost predicate Cut(items: seq<Item>, text: string, at: nat, cuts: seq<nat>) {
    && |cuts| == |items| + 1 && cuts[0] == at
    && (forall i :: 0 <= i < |cuts| ==> cuts[i] <= |text|)
    && (forall i :: 0 <= i < |items| ==> cuts[i] <= cuts[i + 1] && Accounts(items[i], text, cuts[i], cuts[i + 1]))
  }

  /** The pattern matches some stretch of the text that starts at `at`. */
  ghost predicate Matches(items: seq<Item>, text: string, at: nat) {
    exists cuts: seq<nat> :: Cut(items, text, at, cuts)
  }

  lemma MatchesNothing(text: string, at: nat)
    requires at <= |text|
    ensures Matches([], text, at)
  {
    assert Cut([], text, at, [at]);
  }

  /** A pattern matches where its first item accounts for a stretch behind which the rest matches. */
  lemma MatchesFirst(item: Item, rest: seq<Item>, text: string, at: nat)
    requires at <= |text|
    ensures Matches([item] + rest, text, at) <==> exists b: nat :: Then(item, rest, text, at, b)
  {
    var items := [item] + rest;
    if cuts: seq<nat> :| Cut(items, text, at, cuts) {
      assert Accounts(items[0], text, cuts[0], cuts[1]);
      var tail := cuts[1..];
      forall i | 0 <= i < |rest| ensures tail[i] <= tail[i + 1] && Accounts(rest[i], text, tail[i], tail[i + 1]) {
        assert items[i + 1] == rest[i] && cuts[i + 1] == tail[i] && cuts[i + 2] == tail[i + 1];
      }
      assert Cut(rest, text, cuts[1], tail);
      assert Then(item, rest, text, at, cuts[1]);
    }
    if b: nat :| Then(item, rest, text, at, b) {
      var tail: seq<nat> :| Cut(rest, text, b, tail);
      var cuts := [at] + tail;
      forall i | 0 <= i < |items| ensures cuts[i] <= cuts[i + 1] && Accounts(items[i], text, cuts[i], cuts[i + 1]) {
        if i > 0 { assert items[i] == rest[i - 1] && cuts[i] == tail[i - 1] && cuts[i + 1] == tail[i]; }
      }
      assert Cut(items, text, at, cuts);
    }
  }

  ghost predicate Then(item: Item, rest: seq<Item>, text: string, at: nat, b: nat) {
    at <= b <= |text| && Accounts(item, text, at, b) && Matches(rest, text, b)
  }

  /** matchhere. */
  method MatchHere(re: string, text: string, at: nat) returns (ok: bool)
    requires at <= |text|
    ensures ok <==> Matches(Items(re), text, at)
    decreases |re|
  {
    if re == [] {
      MatchesNothing(text, at);
      return true;
    }
    if |re| >= 2 && re[1] == '*' {
      ok := MatchStar(re[0], re[2..], text, at);
      return;
    }
    if re == "$" {
      MatchesNothing(text, |text|);
      MatchesFirst(End, [], text, at);
      assert [End] + [] == [End];
      assert at == |text| ==> Then(End, [], text, at, at);
      return at == |text|;
    }
    MatchesFirst(One(re[0]), Items(re[1..]), text, at);
    if at < |text| && (re[0] == '.' || re[0] == text[at]) {
      ok := MatchHere(re[1..], text, at + 1);
      assert ok ==> Then(One(re[0]), Items(re[1..]), text, at, at + 1);
      return;
    }
    return false;
  }

  /** matchstar. */
  method MatchStar(c: char, re: string, text: string, at: nat) returns (ok: bool)
    requires at <= |text|
    ensures ok <==> Matches([Star(c)] + Items(re), text, at)
    decreases |re| + 1
  {
    MatchesFirst(Star(c), Items(re), text, at);
    var k := at;
    while true
      invariant at <= k <= |text|
      invariant forall i :: at <= i < k ==> Fits(c, text[i]) && !Matches(Items(re), text, i)
      decreases |text| - k
    {
      ok := MatchHere(re, text, k);
      if ok {
        assert Then(Star(c), Items(re), text, at, k);
        return;
      }
      if k == |text| || !(text[k] == c || c == '.') {
        forall b: nat ensures !Then(Star(c), Items(re), text, at, b) {
          if at <= b <= |text| && b > k { assert Accounts(Star(c), text, at, b) ==> Fits(c, text[k]); }
        }
        return false;
      }
      k := k + 1;
    }
  }

  /** The pattern matches at the start of the text if it begins with ^, and somewhere in the text if not. */
  ghost predicate Found(re: string, text: string) {
    if re != [] && re[0] == '^' then Matches(Items(re[1..]), text, 0)
    else exists at: nat :: at <= |text| && Matches(Items(re), text, at)
  }

  /** match. */
  method Match(re: string, text: string) returns (ok: bool)
    ensures ok <==> Found(re, text)
  {
    if re != [] && re[0] == '^' {
      ok := MatchHere(re[1..], text, 0);
      return;
    }
    var k := 0;
    while true
      invariant 0 <= k <= |text|
      invariant forall i :: 0 <= i < k ==> !Matches(Items(re), text, i)
      decreases |text| - k
    {
      ok := MatchHere(re, text, k);
      if ok || k == |text| { return; }
      k := k + 1;
    }
  }
}
