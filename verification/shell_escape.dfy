/**
 * Shell-safety encoder: `maybeQuote` turns one token into text that a POSIX
 * shell reads back as exactly that token.
 */
module ShellEscape {
  import opened Results
  import opened Text

  /**
   * The characters that `[^\w@%+=:,./-]` does not match: ASCII letters,
   * digits, the underscore and `@ % + = : , . / -`.
   */
  predicate IsSafe(c: char) {
    ('a' <= c <= 'z') || ('A' <= c <= 'Z') || ('0' <= c <= '9') || c == '_' || c in "@%+=:,./-"
  }

  /** `shellEscapePattern.MatchString(s)`: some character of `s` is not safe. */
  predicate NeedsQuoting(s: string): (b: bool)
    ensures s == [] ==> !b
    ensures '\'' in s ==> b
    ensures ' ' in s ==> b
  {
    exists i :: 0 <= i < |s| && !IsSafe(s[i])
  }

  /** What a single quote inside a quoted token becomes: close, `"'"`, reopen. */
  const QuoteEscape: string := "'\"'\"'"

  /** `maybeQuote`. */
  function MaybeQuote(s: string): (r: string)
    ensures s == [] ==> r == "''"
    ensures s != [] && !NeedsQuoting(s) ==> r == s
    ensures NeedsQuoting(s) ==> |r| >= 2 && r[0] == '\'' && r[|r| - 1] == '\''
  {
    if |s| == 0 then "''"
    else if NeedsQuoting(s) then "'" + Replace(s, "'", QuoteEscape, -1) + "'"
    else s
  }

  // ---------------------------------------------------------------------
  // The inverse: how a POSIX shell reads one word (quoting as in section
  // 2.2 of the Shell Command Language of POSIX.1-2017). The reader accepts
  // only words whose meaning is literal text: outside quotes only safe
  // characters, inside double quotes no `$`, backquote or backslash.
  // ---------------------------------------------------------------------

  datatype QuoteState = Unquoted | InSingle | InDouble

  /** `p` in front of the text of `o`, if any. */
  function Prefix(p: string, o: Option<string>): Option<string> {
    match o
    case None => None
    case Some(x) => Some(p + x)
  }

  /** The literal text the shell reads from `w`, starting in quoting state `st`. */
  function Read(w: string, st: QuoteState): Option<string>
    decreases |w|
  {
    if w == [] then (if st == Unquoted then Some("") else None)
    else
      var c := w[0];
      match st
      case Unquoted =>
        if c == '\'' then Read(w[1..], InSingle)
        else if c == '"' then Read(w[1..], InDouble)
        else if IsSafe(c) then Prefix([c], Read(w[1..], Unquoted))
        else None
      case InSingle =>
        if c == '\'' then Read(w[1..], Unquoted)
        else Prefix([c], Read(w[1..], InSingle))
      case InDouble =>
        if c == '"' then Read(w[1..], Unquoted)
        else if c == '$' || c == '`' || c == '\\' then None
        else Prefix([c], Read(w[1..], InDouble))
  }

  /** One shell word; an empty text is no word at all. */
  function ReadWord(w: string): Option<string> {
    if w == [] then None else Read(w, Unquoted)
  }

  lemma {:induction false} PrefixAssoc(p: string, q: string, o: Option<string>)
    ensures Prefix(p, Prefix(q, o)) == Prefix(p + q, o)
  {
    if o.Some? { assert p + (q + o.value) == (p + q) + o.value; }
  }

  /** A token of safe characters reads back as itself without quotes. */
  lemma {:induction false} ReadSafe(s: string)
    requires !NeedsQuoting(s)
    ensures Read(s, Unquoted) == Some(s)
    decreases |s|
  {
    if s != [] {
      assert IsSafe(s[0]);
      assert !NeedsQuoting(s[1..]) by {
        forall i | 0 <= i < |s[1..]| ensures IsSafe(s[1..][i]) { assert s[1..][i] == s[i + 1]; }
      }
      ReadSafe(s[1..]);
      assert [s[0]] + s[1..] == s;
    }
  }

  /** Inside single quotes, the escape sequence reads as one apostrophe and stays inside. */
  lemma {:induction false} ReadQuoteEscape(w: string)
    ensures Read(QuoteEscape + w, InSingle) == Prefix("'", Read(w, InSingle))
  {
    assert Read(QuoteEscape + w, InSingle) == Read("\"'\"'" + w, Unquoted) by {
      assert (QuoteEscape + w)[0] == '\'';
      assert (QuoteEscape + w)[1..] == "\"'\"'" + w;
    }
    assert Read("\"'\"'" + w, Unquoted) == Read("'\"'" + w, InDouble) by {
      assert ("\"'\"'" + w)[1..] == "'\"'" + w;
    }
    assert Read("'\"'" + w, InDouble) == Prefix("'", Read("\"'" + w, InDouble)) by {
      assert ("'\"'" + w)[1..] == "\"'" + w;
    }
    assert Read("\"'" + w, InDouble) == Read("'" + w, Unquoted) by {
      assert ("\"'" + w)[1..] == "'" + w;
    }
    assert Read("'" + w, Unquoted) == Read(w, InSingle) by {
      assert ("'" + w)[1..] == w;
    }
  }

  /** Inside single quotes, the escaped text of `s` reads back as `s`. */
  lemma {:induction false} ReadEscaped(s: string, t: string)
    ensures Read(Replace(s, "'", QuoteEscape, -1) + t, InSingle) == Prefix(s, Read(t, InSingle))
    decreases |s|
  {
    var x := Replace(s, "'", QuoteEscape, -1);
    if s == [] {
      assert x + t == t;
      if Read(t, InSingle).Some? { assert [] + Read(t, InSingle).value == Read(t, InSingle).value; }
    } else {
      var rest := Replace(s[1..], "'", QuoteEscape, -1);
      ReadEscaped(s[1..], t);
      PrefixAssoc([s[0]], s[1..], Read(t, InSingle));
      assert s == [s[0]] + s[1..];
      if s[0] == '\'' {
        assert s[..1] == "'";
        assert x + t == QuoteEscape + (rest + t);
        ReadQuoteEscape(rest + t);
      } else {
        assert s[..1] != "'";
        assert x + t == [s[0]] + (rest + t);
        assert (x + t)[1..] == rest + t;
      }
    }
  }

  /** The shell reads the output of `MaybeQuote` back as the original token. */
  lemma {:induction false} MaybeQuoteRoundTrip(s: string)
    ensures ReadWord(MaybeQuote(s)) == Some(s)
  {
    if s == [] {
      assert Read("''", Unquoted) == Read("'", InSingle) == Read("", Unquoted);
    } else if NeedsQuoting(s) {
      var x := Replace(s, "'", QuoteEscape, -1);
      assert MaybeQuote(s) == "'" + (x + "'");
      assert ("'" + (x + "'"))[1..] == x + "'";
      ReadEscaped(s, "'");
      assert Read("'", InSingle) == Some("") by {
        assert "'"[1..] == [];
      }
      assert s + "" == s;
    } else {
      ReadSafe(s);
    }
  }

  /** `it's` becomes `'it'"'"'s'`. */
  lemma {:induction false} MaybeQuoteApostrophe()
    ensures MaybeQuote("it's") == "'it'\"'\"'s'"
  {
    var its := "it's";
    assert !IsSafe(its[2]);
    assert its == "it" + ("'" + "s");
    ReplaceSkips("it", "'" + "s", "'", QuoteEscape, -1);
    ReplaceHit("'", "s", QuoteEscape, -1);
    ReplaceAbsent("s", "'", QuoteEscape, -1);
    assert "'" + ("it" + (QuoteEscape + "s")) + "'" == "'it'\"'\"'s'";
  }
}
