/** Splitting a command line into parts, respecting single and double quotes. */
module CommandSplit {
  import opened Prelude

  predicate IsQuote(ch: char) { ch == '"' || ch == '\'' }

  /** The characters with the Unicode property White_Space. */
  predicate IsWhitespace(ch: char) {
    var n := ch as int;
    || 9 <= n <= 13 || n == 0x20 || n == 0x85 || n == 0xA0 || n == 0x1680
    || 0x2000 <= n <= 0x200A || n == 0x2028 || n == 0x2029 || n == 0x202F || n == 0x205F || n == 0x3000
  }

  /** Finished parts, the part being built, and the open quote if there is one. */
  datatype Splitter = Splitter(parts: seq<string>, current: string, open: Option<char>)

  const EMPTY := Splitter([], "", None)

  function Flushed(s: Splitter): Splitter {
    if s.current == "" then s else s.(parts := s.parts + [s.current], current := "")
  }

  function Feed(s: Splitter, ch: char): Splitter {
    if IsQuote(ch) then
      if s.open == Some(ch) then s.(open := None)
      else if s.open.None? then s.(open := Some(ch))
      else s.(current := s.current + [ch])
    else if IsWhitespace(ch) && s.open.None? then Flushed(s)
    else s.(current := s.current + [ch])
  }

  function FeedAll(s: Splitter, text: string): Splitter {
    if text == "" then s else Feed(FeedAll(s, text[..|text| - 1]), text[|text| - 1])
  }

  function Split(command: string): seq<string> {
    Flushed(FeedAll(EMPTY, command)).parts
  }

  method SplitCommand(command: string) returns (parts: seq<string>)
    ensures parts == Split(command)
  {
    parts := [];
    var current := "";
    var inQuotes := false;
    var quoteChar := '"';
    for i := 0 to |command|
      invariant FeedAll(EMPTY, command[..i]) == Splitter(parts, current, if inQuotes then Some(quoteChar) else None)
    {
      var ch := command[i];
      assert command[..i + 1][..i] == command[..i];
      if ch == '"' || ch == '\'' {
        if inQuotes && ch == quoteChar {
          inQuotes := false;
        } else if !inQuotes {
          inQuotes := true;
          quoteChar := ch;
        } else {
          current := current + [ch];
        }
      } else if IsWhitespace(ch) && !inQuotes {
        if |current| > 0 {
          parts := parts + [current];
          current := "";
        }
      } else {
        current := current + [ch];
      }
    }
    assert command[..|command|] == command;
    if |current| > 0 {
      parts := parts + [current];
    }
  }

  // ---- No part is empty; the parts hold the text of the command in order ----

  /** Reading `ch` while quote `q` is open. */
  function NextQuote(q: Option<char>, ch: char): Option<char> {
    if !IsQuote(ch) then q else if q == Some(ch) then None else if q.None? then Some(ch) else q
  }

  /** `ch` opens or closes a quoted stretch, or is whitespace outside one. */
  predicate Drops(q: Option<char>, ch: char) {
    if IsQuote(ch) then q.None? || q == Some(ch) else IsWhitespace(ch) && q.None?
  }

  /** The quote that is open after `text`, read off the text alone. */
  function OpenQuote(text: string): Option<char> {
    if text == "" then None else NextQuote(OpenQuote(text[..|text| - 1]), text[|text| - 1])
  }

  /** The command without delimiting quotes and without whitespace outside quotes. */
  function Stripped(text: string): string {
    if text == "" then ""
    else
      var before, ch := text[..|text| - 1], text[|text| - 1];
      Stripped(before) + if Drops(OpenQuote(before), ch) then "" else [ch]
  }

  function Concat(parts: seq<string>): string {
    if parts == [] then "" else Concat(parts[..|parts| - 1]) + parts[|parts| - 1]
  }

  predicate NoneEmpty(parts: seq<string>) { forall i :: 0 <= i < |parts| ==> parts[i] != "" }

  function Text(s: Splitter): string { Concat(s.parts) + s.current }

  lemma FlushedKeeps(s: Splitter)
    ensures Text(Flushed(s)) == Text(s)
    ensures NoneEmpty(s.parts) ==> NoneEmpty(Flushed(s).parts)
  {}

  lemma FeedKeeps(s: Splitter, ch: char)
    ensures Text(Feed(s, ch)) == Text(s) + if Drops(s.open, ch) then "" else [ch]
    ensures Feed(s, ch).open == NextQuote(s.open, ch)
    ensures NoneEmpty(s.parts) ==> NoneEmpty(Feed(s, ch).parts)
  {}

  lemma {:induction false} FedText(text: string)
    ensures FeedAll(EMPTY, text).open == OpenQuote(text)
    ensures Text(FeedAll(EMPTY, text)) == Stripped(text)
    ensures NoneEmpty(FeedAll(EMPTY, text).parts)
  {
    if text != "" {
      FedText(text[..|text| - 1]);
      FeedKeeps(FeedAll(EMPTY, text[..|text| - 1]), text[|text| - 1]);
    }
  }

  /** For every command: no part is empty and the parts concatenate to its stripped text. */
  lemma PartsHoldText(command: string)
    ensures NoneEmpty(Split(command))
    ensures Concat(Split(command)) == Stripped(command)
  {
    FedText(command);
    FlushedKeeps(FeedAll(EMPTY, command));
  }

  // ---- Where parts end ----

  lemma {:induction false} FeedConcat(s: Splitter, a: string, b: string)
    ensures FeedAll(s, a + b) == FeedAll(FeedAll(s, a), b)
  {
    if b == "" {
      assert a + b == a;
    } else {
      FeedConcat(s, a, b[..|b| - 1]);
      assert (a + b)[..|a + b| - 1] == a + b[..|b| - 1];
    }
  }

  lemma FeedOne(s: Splitter, ch: char)
    ensures FeedAll(s, [ch]) == Feed(s, ch)
  {}

  /** Parts that are finished have no influence on what follows. */
  lemma {:induction false} PartsStay(parts: seq<string>, text: string)
    ensures var s := FeedAll(EMPTY, text);
            FeedAll(Splitter(parts, "", None), text) == s.(parts := parts + s.parts)
  {
    if text == "" {
      assert parts + [] == parts;
    } else {
      var init, ch := text[..|text| - 1], text[|text| - 1];
      PartsStay(parts, init);
      var s := FeedAll(EMPTY, init);
      assert parts + (s.parts + [s.current]) == parts + s.parts + [s.current];
    }
  }

  /** Whitespace outside quotes ends a part: what is before it and what is after it are split
      independently. */
  lemma WhitespaceSeparates(a: string, ch: char, b: string)
    requires IsWhitespace(ch) && OpenQuote(a).None?
    ensures Split(a + [ch] + b) == Split(a) + Split(b)
  {
    var s := FeedAll(EMPTY, a);
    FedText(a);
    FeedConcat(EMPTY, a + [ch], b);
    FeedConcat(EMPTY, a, [ch]);
    FeedOne(s, ch);
    PartsStay(Flushed(s).parts, b);
    var t := FeedAll(EMPTY, b);
    assert Flushed(s).parts + (t.parts + [t.current]) == Flushed(s).parts + t.parts + [t.current];
  }

  /** Every whitespace character of the text is inside quotes. */
  ghost predicate AllQuoted(text: string) {
    forall i :: 0 <= i < |text| && IsWhitespace(text[i]) ==> OpenQuote(text[..i]).Some?
  }

  lemma {:induction false} OnePart(text: string)
    requires AllQuoted(text)
    ensures FeedAll(EMPTY, text) == Splitter([], Stripped(text), OpenQuote(text))
  {
    if text != "" {
      var init, n := text[..|text| - 1], |text| - 1;
      forall i | 0 <= i < n && IsWhitespace(init[i]) ensures OpenQuote(init[..i]).Some? {
        assert init[..i] == text[..i] && init[i] == text[i];
      }
      OnePart(init);
      assert IsWhitespace(text[n]) ==> OpenQuote(text[..n]).Some?;
    }
  }

  /** Nothing else does: without such whitespace there is one part, or none. */
  lemma OnlyWhitespaceSeparates(text: string)
    requires AllQuoted(text)
    ensures Split(text) == if Stripped(text) == "" then [] else [Stripped(text)]
  {
    OnePart(text);
  }

  // ---- Quoting and splitting ----

  /** An argument with a quote character that does not occur in it. */
  datatype Quoted = Quoted(quote: char, text: string)

  predicate Quotable(a: Quoted) { IsQuote(a.quote) && a.quote !in a.text }

  function Enclosed(a: Quoted): string { [a.quote] + a.text + [a.quote] }

  /** The enclosed arguments, separated by single spaces. */
  function Join(args: seq<Quoted>): string {
    if args == [] then ""
    else if |args| == 1 then Enclosed(args[0])
    else Join(args[..|args| - 1]) + " " + Enclosed(args[|args| - 1])
  }

  function NonEmptyTexts(args: seq<Quoted>): seq<string> {
    if args == [] then []
    else NonEmptyTexts(args[..|args| - 1]) + if args[|args| - 1].text == "" then [] else [args[|args| - 1].text]
  }

  lemma {:induction false} FeedInside(s: Splitter, text: string)
    requires s.open.Some? && s.open.value !in text
    ensures FeedAll(s, text) == s.(current := s.current + text)
  {
    if text == "" {
      assert s.current + text == s.current;
    } else {
      var n := |text| - 1;
      FeedInside(s, text[..n]);
      assert text[n] in text && s.current + text == (s.current + text[..n]) + [text[n]];
    }
  }

  lemma FeedEnclosed(s: Splitter, a: Quoted)
    requires Quotable(a) && s.open.None?
    ensures FeedAll(s, Enclosed(a)) == s.(current := s.current + a.text)
  {
    var inside := s.(open := Some(a.quote));
    assert Enclosed(a) == [a.quote] + (a.text + [a.quote]);
    FeedConcat(s, [a.quote], a.text + [a.quote]);
    FeedOne(s, a.quote);
    FeedConcat(inside, a.text, [a.quote]);
    FeedInside(inside, a.text);
    FeedOne(inside.(current := s.current + a.text), a.quote);
  }

  lemma JoinSnoc(args: seq<Quoted>)
    requires |args| > 1
    ensures Join(args) == Join(args[..|args| - 1]) + (" " + Enclosed(args[|args| - 1]))
  {}

  lemma {:induction false} FeedJoin(args: seq<Quoted>)
    requires forall a :: a in args ==> Quotable(a)
    ensures FeedAll(EMPTY, Join(args)).open.None?
    ensures Flushed(FeedAll(EMPTY, Join(args))).parts == NonEmptyTexts(args)
  {
    if args != [] {
      var n := |args| - 1;
      var init, a := args[..n], args[n];
      assert a in args && forall b :: b in init ==> b in args;
      FeedJoin(init);
      if n == 0 {
        assert init == [] && NonEmptyTexts(init) == [];
        FeedEnclosed(EMPTY, a);
        assert EMPTY.current + a.text == a.text;
      } else {
        JoinSnoc(args);
        FeedNext(EMPTY, Join(init), a);
      }
    }
  }

  /** A space after `text` ends its last part, and the next argument is fed into a new one. */
  lemma FeedNext(s0: Splitter, text: string, a: Quoted)
    requires Quotable(a) && FeedAll(s0, text).open.None?
    ensures FeedAll(s0, text + (" " + Enclosed(a))) == Flushed(FeedAll(s0, text)).(current := a.text)
  {
    var s := FeedAll(s0, text);
    FeedConcat(s0, text, " " + Enclosed(a));
    FeedConcat(s, " ", Enclosed(a));
    FeedOne(s, ' ');
    FeedEnclosed(Flushed(s), a);
    assert Flushed(s).current + a.text == a.text;
  }

  /** Splitting the joined form gives back the non-empty arguments; so it gives back the
      whole list if and only if none is empty. */
  lemma SplitUndoesJoin(args: seq<Quoted>)
    requires forall a :: a in args ==> Quotable(a)
    ensures Split(Join(args)) == NonEmptyTexts(args)
    ensures |Split(Join(args))| == |args| <==> forall a :: a in args ==> a.text != ""
    ensures (forall a :: a in args ==> a.text != "") ==>
              |Split(Join(args))| == |args| && forall i :: 0 <= i < |args| ==> Split(Join(args))[i] == args[i].text
  {
    FeedJoin(args);
    NoneDropped(args);
  }

  lemma {:induction false} NoneDropped(args: seq<Quoted>)
    ensures |NonEmptyTexts(args)| <= |args|
    ensures |NonEmptyTexts(args)| == |args| <==> forall a :: a in args ==> a.text != ""
    ensures (forall a :: a in args ==> a.text != "") ==>
              |NonEmptyTexts(args)| == |args| && forall i :: 0 <= i < |args| ==> NonEmptyTexts(args)[i] == args[i].text
  {
    if args != [] {
      var n := |args| - 1;
      NoneDropped(args[..n]);
      assert args == args[..n] + [args[n]];
    }
  }
}
