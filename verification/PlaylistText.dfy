/** The text of a playlist file: string_trim of utils.h, the lines std::getline reads, and the
    urls that load_playlist and save_playlist of playlist.cpp make of them. */
module PlaylistText {
  import opened Bytes

  /** The characters that string_trim removes. */
  predicate Blank(c: char) {
    c == '\t' || c == '\n' || c == (0x0b as char) || c == (0x0c as char) || c == '\r' || c == ' '
  }

  predicate AllBlank(s: string) {
    forall i :: 0 <= i < |s| ==> Blank(s[i])
  }

  function TrimLeft(s: string): (r: string)
    ensures r == [] || !Blank(r[0])
    ensures |r| <= |s| && s[|s| - |r|..] == r && AllBlank(s[..|s| - |r|])
  {
    if s != [] && Blank(s[0]) then TrimLeft(s[1..]) else s
  }

  function TrimRight(s: string): (r: string)
    ensures r == [] || !Blank(r[|r| - 1])
    ensures r <= s && AllBlank(s[|r|..])
  {
    if s != [] && Blank(s[|s| - 1]) then TrimRight(s[..|s| - 1]) else s
  }

  function Trim(s: string): string {
    TrimLeft(TrimRight(s))
  }

  predicate Trimmed(s: string) {
    s == [] || (!Blank(s[0]) && !Blank(s[|s| - 1]))
  }

  /** Trimming removes blanks at the ends and nothing else. */
  lemma TrimTrims(s: string)
    ensures Trimmed(Trim(s)) && (Trimmed(s) ==> Trim(s) == s)
    ensures forall c :: c in Trim(s) ==> c in s
  {
    var r := TrimRight(s);
    var t := TrimLeft(r);
    if t != [] { assert t[|t| - 1] == r[|r| - |t|..][|t| - 1]; }
    forall k | 0 <= k < |t|
      ensures t[k] in s
    {
      assert t[k] == r[|r| - |t|..][k] == s[|r| - |t| + k];
    }
  }

  /** What stands between blanks survives. */
  lemma TrimAround(a: string, t: string, b: string)
    requires AllBlank(a) && Trimmed(t) && AllBlank(b)
    ensures Trim(a + t + b) == t
  {
    var s := a + t + b;
    var r := TrimRight(s);
    if t == [] {
      assert s == a + b;
      OnlyBlanksGo(s);
    } else {
      RightEnd(a + t, b);
      assert (a + t)[|a + t| - 1] == t[|t| - 1];
      LeftEnd(a, t);
    }
  }

  lemma {:induction false} RightEnd(u: string, b: string)
    requires u != [] && !Blank(u[|u| - 1]) && AllBlank(b)
    ensures TrimRight(u + b) == u
  {
    if b == [] {
      assert u + b == u;
    } else {
      var s := u + b;
      assert s[|s| - 1] == b[|b| - 1] && s[..|s| - 1] == u + b[..|b| - 1];
      RightEnd(u, b[..|b| - 1]);
    }
  }

  lemma {:induction false} LeftEnd(a: string, t: string)
    requires t != [] && !Blank(t[0]) && AllBlank(a)
    ensures TrimLeft(a + t) == t
  {
    if a == [] {
      assert a + t == t;
    } else {
      var s := a + t;
      assert s[0] == a[0] && s[1..] == a[1..] + t;
      LeftEnd(a[1..], t);
    }
  }

  /** Every string is blanks, its trimmed form, and blanks. */
  lemma TrimLeaves(s: string)
    ensures |Trim(s)| <= |TrimRight(s)| && SplitBy(s, |TrimRight(s)| - |Trim(s)|, Trim(s))
  {
    LeavesBoth(s, TrimRight(s), Trim(s));
  }

  lemma LeavesBoth(s: string, r: string, t: string)
    requires r <= s && |t| <= |r| && r[|r| - |t|..] == t && AllBlank(r[..|r| - |t|]) && AllBlank(s[|r|..])
    ensures SplitBy(s, |r| - |t|, t)
  {
    var i := |r| - |t|;
    assert s[..i] == r[..i] && s[i..i + |t|] == r[i..] && s[i + |t|..] == s[|r|..];
  }

  /** s is i blanks, t, and blanks. */
  predicate SplitBy(s: string, i: nat, t: string) {
    i + |t| <= |s| && s[i..i + |t|] == t && AllBlank(s[..i]) && AllBlank(s[i + |t|..])
  }

  lemma {:induction false} OnlyBlanksGo(s: string)
    ensures (forall c :: c in s ==> Blank(c)) <==> Trim(s) == []
  {
    OnlyBlanksLeft(TrimRight(s));
    OnlyBlanksRight(s);
  }

  lemma {:induction false} OnlyBlanksLeft(s: string)
    ensures (forall c :: c in s ==> Blank(c)) <==> TrimLeft(s) == []
  {
    if s == [] {
    } else {
      OnlyBlanksLeft(s[1..]);
      assert s == [s[0]] + s[1..];
    }
  }

  lemma {:induction false} OnlyBlanksRight(s: string)
    ensures (forall c :: c in s ==> Blank(c)) <==> forall c :: c in TrimRight(s) ==> Blank(c)
  {
    if s == [] {
    } else {
      OnlyBlanksRight(s[..|s| - 1]);
      assert s == s[..|s| - 1] + [s[|s| - 1]];
    }
  }

  // ----- lines -----

  /** The length of the first line. */
  function LineEnd(text: string): (k: nat)
    ensures k <= |text| && (forall i :: 0 <= i < k ==> text[i] != '\n') && (k < |text| ==> text[k] == '\n')
  {
    if text == [] || text[0] == '\n' then 0 else 1 + LineEnd(text[1..])
  }

  /** std::getline: the line, and what is left behind its newline. */
  function GetLine(text: string): (r: (string, string))
    requires text != []
    ensures |r.1| < |text|
  {
    var k := LineEnd(text);
    (text[..k], if k < |text| then text[k + 1..] else [])
  }

  /** No line holds a newline, and the text is the line, a newline if there was one, and the rest. */
  lemma LineAndRest(text: string)
    requires text != []
    ensures var (line, rest) := GetLine(text);
      '\n' !in line && (text == line + "\n" + rest || (text == line && rest == []))
  {
    var k := LineEnd(text);
    if k < |text| {
      assert text == text[..k] + [text[k]] + text[k + 1..];
    } else {
      assert text[..k] == text;
    }
  }

  /** What load_playlist keeps of a line: nothing, or a url. */
  function UrlOf(line: string, accepts: string -> bool): seq<string> {
    var url := Trim(line);
    if url == [] || url[0] == '#' || !accepts(url) then [] else [url]
  }

  function Urls(text: string, accepts: string -> bool): seq<string>
    decreases |text|
  {
    if text == [] then [] else UrlOf(GetLine(text).0, accepts) + Urls(GetLine(text).1, accepts)
  }

  function SavedText(urls: seq<string>): string {
    if urls == [] then [] else urls[0] + "\n" + SavedText(urls[1..])
  }

  /** A url that its own line brings back. */
  predicate Savable(url: string, accepts: string -> bool) {
    url != [] && Trimmed(url) && url[0] != '#' && '\n' !in url && accepts(url)
  }

  /** Every url that is loaded can be saved. */
  lemma {:induction false} LoadedAreSavable(text: string, accepts: string -> bool)
    ensures forall u :: u in Urls(text, accepts) ==> Savable(u, accepts)
    decreases |text|
  {
    if text == [] {
    } else {
      var (line, rest) := GetLine(text);
      TrimTrims(line);
      LoadedAreSavable(rest, accepts);
    }
  }

  lemma SavedLine(url: string, rest: string)
    requires '\n' !in url
    ensures GetLine(url + "\n" + rest) == (url, rest)
  {
    var text := url + "\n" + rest;
    assert text[|url|] == '\n';
    forall i | 0 <= i < |url|
      ensures text[i] != '\n'
    {
      assert text[i] == url[i] && url[i] in url;
    }
    assert LineEnd(text) == |url|;
    assert text[..|url|] == url && text[|url| + 1..] == rest;
  }

  /** std::getline also returns a last line that no newline ends: a text and the same text with its
      newline bring the same urls. */
  lemma {:induction false} UnterminatedLine(text: string, accepts: string -> bool)
    requires text != [] && text[|text| - 1] != '\n'
    ensures Urls(text, accepts) == Urls(text + "\n", accepts)
    decreases |text|
  {
    var (line, rest) := GetLine(text);
    LineAndRest(text);
    SavedLine(line, []);
    assert line + "\n" + [] == line + "\n";
    if text != line {
      assert text == line + "\n" + rest && text[|line|] == '\n';
      assert rest != [] && rest[|rest| - 1] == text[|text| - 1];
      assert text + "\n" == line + "\n" + (rest + "\n");
      SavedLine(line, rest + "\n");
      UnterminatedLine(rest, accepts);
    }
  }

  /** What is kept of a list of lines. */
  function Kept(lines: seq<string>, accepts: string -> bool): seq<string> {
    if lines == [] then [] else UrlOf(lines[0], accepts) + Kept(lines[1..], accepts)
  }

  predicate OneLine(line: string) { '\n' !in line }

  lemma FirstLine(line: string, rest: string, accepts: string -> bool)
    requires OneLine(line)
    ensures Urls(line + "\n" + rest, accepts) == UrlOf(line, accepts) + Urls(rest, accepts)
  {
    SavedLine(line, rest);
  }

  /** Loading goes line by line: of lines that end in newlines and a last one that need not, each
      adds what is kept of it. */
  lemma {:induction false} LinesLoad(lines: seq<string>, last: string, accepts: string -> bool)
    requires (forall i :: 0 <= i < |lines| ==> OneLine(lines[i])) && OneLine(last)
    ensures Urls(SavedText(lines) + last, accepts) == Kept(lines, accepts) + UrlOf(last, accepts)
  {
    if lines == [] {
      assert SavedText(lines) + last == last;
      LastLine(last, accepts);
    } else {
      ThreeParts(lines[0], "\n", SavedText(lines[1..]), last);
      FirstLine(lines[0], SavedText(lines[1..]) + last, accepts);
      LinesLoad(lines[1..], last, accepts);
      Assoc(UrlOf(lines[0], accepts), Kept(lines[1..], accepts), UrlOf(last, accepts));
    }
  }

  lemma ThreeParts<T>(a: seq<T>, b: seq<T>, c: seq<T>, d: seq<T>)
    ensures (a + b + c) + d == a + b + (c + d)
  {
  }

  lemma LastLine(last: string, accepts: string -> bool)
    requires OneLine(last)
    ensures Urls(last, accepts) == UrlOf(last, accepts)
  {
    if last == [] {
      TrimTrims(last);
    } else {
      SavedLine(last, []);
      assert last + "\n" + [] == last + "\n";
      assert last[|last| - 1] in last;
      UnterminatedLine(last, accepts);
    }
  }

  /** A line adds what stands between its blanks, unless that is nothing, a comment or not accepted. */
  lemma UrlOfLine(a: string, url: string, b: string, accepts: string -> bool)
    requires AllBlank(a) && Trimmed(url) && AllBlank(b)
    ensures url == [] || url[0] == '#' || !accepts(url) ==> UrlOf(a + url + b, accepts) == []
    ensures url != [] && url[0] != '#' && accepts(url) ==> UrlOf(a + url + b, accepts) == [url]
  {
    TrimAround(a, url, b);
  }

  lemma {:induction false} SavableComeBack(urls: seq<string>, accepts: string -> bool)
    requires forall u :: u in urls ==> Savable(u, accepts)
    ensures Urls(SavedText(urls), accepts) == urls
  {
    if urls == [] {
    } else {
      assert urls[0] in urls;
      SavableComeBack(urls[1..], accepts);
      SavedLine(urls[0], SavedText(urls[1..]));
      TrimTrims(urls[0]);
    }
  }

  /** Loading a saved playlist brings back the same urls exactly if every one of them is
      non-empty, trimmed, free of newlines, no comment and accepted by the metadata reader. */
  lemma RoundTripIff(urls: seq<string>, accepts: string -> bool)
    ensures Urls(SavedText(urls), accepts) == urls <==> forall u :: u in urls ==> Savable(u, accepts)
  {
    LoadedAreSavable(SavedText(urls), accepts);
    if forall u :: u in urls ==> Savable(u, accepts) {
      SavableComeBack(urls, accepts);
    }
  }

  /** Whatever the text, saving what was loaded from it gives a fixed point of load-then-save. */
  lemma LoadThenSaveIsStable(text: string, accepts: string -> bool)
    ensures Urls(SavedText(Urls(text, accepts)), accepts) == Urls(text, accepts)
  {
    LoadedAreSavable(text, accepts);
    SavableComeBack(Urls(text, accepts), accepts);
  }
}
