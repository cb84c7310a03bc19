/**
 Reasoning blocks in an answer: how `strip_think_blocks` removes them, what a message
 with such blocks is, and that stripping is the left inverse of writing one.
 */
module ThinkBlocks {
  import opened Options
  import opened Chunks

  predicate StartsWith(s: string, t: string) { |t| <= |s| && s[..|t|] == t }

  /** `t` occurs in `s` at `k`. */
  predicate OccursAt(s: string, t: string, k: nat) { k <= |s| && StartsWith(s[k..], t) }

  /** `str::find`: the first occurrence. */
  function Find(s: string, t: string): (at: Option<nat>)
    ensures at.Some? ==> OccursAt(s, t, at.value) && forall k: nat | k < at.value :: !OccursAt(s, t, k)
    ensures at.None? ==> forall k: nat :: !OccursAt(s, t, k)
    decreases |s|
  {
    if StartsWith(s, t) then
      assert s[0..] == s;
      Some(0)
    else if s == [] then None
    else
      assert s[0..] == s;
      assert forall k: nat | 0 < k <= |s| :: s[k..] == s[1..][k - 1..];
      var later := Find(s[1..], t);
      assert forall k: nat | 0 < k :: OccursAt(s, t, k) <==> OccursAt(s[1..], t, k - 1);
      if later.Some? then Some(later.value + 1) else None
  }

  /** The two spellings of the tags. */
  function OpenTag(long: bool): string { if long then "<thinking>" else "<think>" }
  function CloseTag(long: bool): string { if long then "</thinking>" else "</think>" }

  /** The earlier of the first occurrences of the two opening tags. */
  function FindOpen(s: string): (at: Option<nat>)
    ensures at.Some? ==>
              && (OccursAt(s, OpenTag(true), at.value) || OccursAt(s, OpenTag(false), at.value))
              && at.value < |s|
              && forall k: nat, long | k < at.value :: !OccursAt(s, OpenTag(long), k)
    ensures at.None? ==> forall k: nat, long :: !OccursAt(s, OpenTag(long), k)
  {
    match (Find(s, OpenTag(false)), Find(s, OpenTag(true)))
    case (Some(a), Some(b)) => Some(if a <= b then a else b)
    case (Some(a), None) => Some(a)
    case (None, b) => b
  }

  /** Where the first block begins and ends. */
  datatype Split =
    | Whole
    | Unclosed(text: string, long: bool, body: string)
    | Closed(text: string, long: bool, body: string, rest: string)

  /** The block whose opening tag follows `text`, up to the first closing tag in `body`. */
  function BlockAfter(text: string, long: bool, body: string): (s: Split)
    ensures s.Closed? ==> |s.rest| < |body|
  {
    match Find(body, CloseTag(long))
    case None => Unclosed(text, long, body)
    case Some(i) => Closed(text, long, body[..i], body[i + |CloseTag(long)|..])
  }

  function SplitAt(raw: string): (s: Split)
    ensures s.Closed? ==> |s.rest| < |raw|
  {
    match FindOpen(raw)
    case None => Whole
    case Some(start) =>
      var long := StartsWith(raw[start..], OpenTag(true));
      BlockAfter(raw[..start], long, raw[start + |OpenTag(long)|..])
  }

  function Strip(raw: string): string
    decreases |raw|
  {
    match SplitAt(raw)
    case Whole => raw
    case Unclosed(text, _, _) => text
    case Closed(text, _, _, rest) => text + Strip(rest)
  }

  // ---- Messages with blocks ------------------------------------------------

  /** Plain text and closed blocks in turn, the last block perhaps cut off. */
  datatype Message =
    | End(text: string)
    | Cut(text: string, long: bool, body: string)
    | Block(text: string, long: bool, body: string, rest: Message)

  function Render(m: Message): string {
    match m
    case End(text) => text
    case Cut(text, long, body) => text + OpenTag(long) + body
    case Block(text, long, body, rest) => text + OpenTag(long) + body + CloseTag(long) + Render(rest)
  }

  function PlainText(m: Message): string {
    match m
    case End(text) => text
    case Cut(text, _, _) => text
    case Block(text, _, _, rest) => text + PlainText(rest)
  }

  ghost predicate NoOpen(s: string) { forall k: nat, long :: !OccursAt(s, OpenTag(long), k) }

  ghost predicate NoClose(s: string, long: bool) { forall k: nat :: !OccursAt(s, CloseTag(long), k) }

  /** Texts hold no opening tag, bodies not their own closing tag. */
  ghost predicate Proper(m: Message) {
    && NoOpen(m.text)
    && (m.Cut? || m.Block? ==> NoClose(m.body, m.long))
    && (m.Block? ==> Proper(m.rest))
  }

  // ---- Stripping inverts rendering -----------------------------------------

  /** A tag begins with the only `<` it has. */
  predicate TagLike(t: string) { |t| > 1 && t[0] == '<' && forall i | 0 < i < |t| :: t[i] != '<' }

  /** No tag begins in `s` and ends in what follows it, if that begins with `<`. */
  lemma NoOverlap(s: string, rest: string, t: string, k: nat)
    requires TagLike(t) && k < |s| && !OccursAt(s, t, k) && rest != [] && rest[0] == '<'
    ensures !OccursAt(s + rest, t, k)
  {
    assert (s + rest)[|s|] == '<';
    if k + |t| <= |s| {
      assert (s + rest)[k..][..|t|] == s[k..][..|t|];
    }
  }

  /** The first closing tag after a body that holds none is right after it. */
  lemma FindsClose(body: string, long: bool, rest: string)
    requires NoClose(body, long)
    ensures Find(body + CloseTag(long) + rest, CloseTag(long)) == Some(|body|)
  {
    var t := CloseTag(long);
    var whole := body + t + rest;
    assert whole == body + (t + rest);
    assert whole[|body|..] == t + rest && (t + rest)[..|t|] == t;
    assert OccursAt(whole, t, |body|);
    forall k: nat | k < |body| ensures !OccursAt(whole, t, k) {
      NoOverlap(body, t + rest, t, k);
    }
  }

  lemma FindsOpen(text: string, long: bool, rest: string)
    requires NoOpen(text)
    ensures FindOpen(text + OpenTag(long) + rest) == Some(|text|)
    ensures StartsWith((text + OpenTag(long) + rest)[|text|..], OpenTag(true)) <==> long
  {
    var t := OpenTag(long);
    var whole := text + t + rest;
    assert whole == text + (t + rest);
    assert whole[|text|..] == t + rest && (t + rest)[..|t|] == t;
    assert OccursAt(whole, t, |text|);
    forall k: nat, other | k < |text| ensures !OccursAt(whole, OpenTag(other), k) {
      NoOverlap(text, t + rest, OpenTag(other), k);
    }
    if !long {
      assert (t + rest)[6] == '>' && OpenTag(true)[6] == 'i';
      assert |t + rest| >= 10 ==> (t + rest)[..10][6] == '>';
    }
  }

  /** The first block of a rendered message is found as it was written. */
  lemma SplitRender(m: Message)
    requires Proper(m)
    ensures SplitAt(Render(m)) ==
            match m
            case End(_) => Whole
            case Cut(text, long, body) => Unclosed(text, long, body)
            case Block(text, long, body, rest) => Closed(text, long, body, Render(rest))
  {
    match m
    case End(_) =>
    case Cut(text, long, body) => SplitTail(text, long, body);
    case Block(text, long, body, rest) => SplitClosed(text, long, body, Render(rest));
  }

  lemma SplitClosed(text: string, long: bool, body: string, rest: string)
    requires NoOpen(text) && NoClose(body, long)
    ensures SplitAt(text + OpenTag(long) + body + CloseTag(long) + rest) == Closed(text, long, body, rest)
  {
    var tail := body + CloseTag(long) + rest;
    Regroup(text + OpenTag(long), body, CloseTag(long), rest);
    SplitTail(text, long, tail);
    ClosedTail(text, long, body, rest);
  }

  lemma ClosedTail(text: string, long: bool, body: string, rest: string)
    requires NoClose(body, long)
    ensures BlockAfter(text, long, body + CloseTag(long) + rest) == Closed(text, long, body, rest)
  {
    var tail := body + CloseTag(long) + rest;
    FindsClose(body, long, rest);
    assert tail[|body| + |CloseTag(long)|..] == rest && tail[..|body|] == body;
  }

  /** The search for the closing tag begins right after the opening one. */
  lemma SplitTail(text: string, long: bool, tail: string)
    requires NoOpen(text)
    ensures SplitAt(text + OpenTag(long) + tail) == BlockAfter(text, long, tail)
  {
    var raw := text + OpenTag(long) + tail;
    FindsOpen(text, long, tail);
    assert raw[..|text|] == text && raw[|text| + |OpenTag(long)|..] == tail;
  }

  /** Stripping a rendered message leaves exactly its plain texts; a block that is cut off goes to the end. */
  lemma {:induction false} StripRender(m: Message)
    requires Proper(m)
    ensures Strip(Render(m)) == PlainText(m)
    decreases m
  {
    SplitRender(m);
    if m.Block? {
      StripRender(m.rest);
    }
  }

  // ---- Every string is such a message --------------------------------------

  function Parse(raw: string): Message
    decreases |raw|
  {
    match SplitAt(raw)
    case Whole => End(raw)
    case Unclosed(text, long, body) => Cut(text, long, body)
    case Closed(text, long, body, rest) => Block(text, long, body, Parse(rest))
  }

  /** What occurs in a prefix occurs in the whole. */
  lemma OccursLater(s: string, n: nat, t: string, k: nat)
    requires n <= |s| && OccursAt(s[..n], t, k)
    ensures OccursAt(s, t, k) && k + |t| <= n
  {
    assert s[k..][..|t|] == s[..n][k..][..|t|];
  }

  lemma PrefixHasNone(s: string, n: nat, t: string)
    requires n <= |s| && t != [] && forall k: nat | k < n :: !OccursAt(s, t, k)
    ensures forall k: nat :: !OccursAt(s[..n], t, k)
  {
    forall k: nat ensures !OccursAt(s[..n], t, k) {
      if OccursAt(s[..n], t, k) {
        OccursLater(s, n, t, k);
      }
    }
  }

  lemma BlockIsSound(text: string, long: bool, body: string)
    ensures match BlockAfter(text, long, body)
            case Whole => false
            case Unclosed(t, l, b) => t == text && l == long && b == body && NoClose(b, l)
            case Closed(t, l, b, rest) => t == text && l == long && NoClose(b, l) && body == b + CloseTag(l) + rest
  {
    var close := Find(body, CloseTag(long));
    if close.Some? {
      PrefixHasNone(body, close.value, CloseTag(long));
      Around(body, CloseTag(long), close.value);
    }
  }

  /** Nothing is lost or invented by a split, and it is at the first tags. */
  lemma SplitIsSound(raw: string)
    ensures match SplitAt(raw)
            case Whole => NoOpen(raw)
            case Unclosed(text, long, body) =>
              NoOpen(text) && NoClose(body, long) && raw == text + OpenTag(long) + body
            case Closed(text, long, body, rest) =>
              NoOpen(text) && NoClose(body, long) && raw == text + OpenTag(long) + body + CloseTag(long) + rest
  {
    var at := FindOpen(raw);
    if at.Some? {
      var start := at.value;
      var long := StartsWith(raw[start..], OpenTag(true));
      var body := raw[start + |OpenTag(long)|..];
      PrefixHasNone(raw, start, OpenTag(true));
      PrefixHasNone(raw, start, OpenTag(false));
      Around(raw, OpenTag(long), start);
      BlockIsSound(raw[..start], long, body);
      var s := SplitAt(raw);
      if s.Closed? {
        Regroup(s.text + OpenTag(long), s.body, CloseTag(long), s.rest);
      }
    }
  }

  /** A string around an occurrence. */
  lemma Around(s: string, t: string, k: nat)
    requires OccursAt(s, t, k)
    ensures k + |t| <= |s| && s == s[..k] + t + s[k + |t|..]
  {
    assert s[k..][..|t|] == t;
  }

  lemma Regroup(a: string, b: string, c: string, d: string)
    ensures a + (b + c + d) == a + b + c + d
  {
  }

  /** Every string whatever is a proper message, rendered. */
  lemma {:induction false} ParseIsProper(raw: string)
    ensures Proper(Parse(raw)) && Render(Parse(raw)) == raw
    decreases |raw|
  {
    SplitIsSound(raw);
    var s := SplitAt(raw);
    if s.Closed? {
      ParseIsProper(s.rest);
    }
  }

  /** So stripping any string leaves the plain texts of the one message it is. */
  lemma StripIsPlainText(raw: string)
    ensures Strip(raw) == PlainText(Parse(raw))
    ensures Render(Parse(raw)) == raw && Proper(Parse(raw))
  {
    ParseIsProper(raw);
    StripRender(Parse(raw));
  }

  /** No two proper messages look the same. */
  lemma {:induction false} ParseRender(m: Message)
    requires Proper(m)
    ensures Parse(Render(m)) == m
    decreases m
  {
    SplitRender(m);
    if m.Block? {
      ParseRender(m.rest);
    }
  }

  lemma {:induction false} PlainIsNoLonger(m: Message)
    ensures |PlainText(m)| <= |Render(m)|
    ensures !m.End? ==> |PlainText(m)| < |Render(m)|
    decreases m
  {
    if m.Block? {
      PlainIsNoLonger(m.rest);
    }
  }

  /** A string is left as it is exactly when it holds no opening tag. */
  lemma StripKeepsIff(raw: string)
    ensures Strip(raw) == raw <==> NoOpen(raw)
  {
    StripIsPlainText(raw);
    PlainIsNoLonger(Parse(raw));
    if !NoOpen(raw) {
      var k, long :| OccursAt(raw, OpenTag(long), k);
    }
  }

  // ---- When one pass is enough ---------------------------------------------

  /** An opening tag begins in `a` and ends in `b`. */
  ghost predicate Straddles(a: string, b: string) {
    exists k: nat, long | k < |a| < k + |OpenTag(long)| :: OccursAt(a + b, OpenTag(long), k)
  }

  /** Where a block was, some text joins those before it to form an opening tag. */
  ghost predicate Seam(before: string, m: Message)
    decreases m
  {
    Straddles(before, m.text) || (m.Block? && Seam(before + m.text, m.rest))
  }

  /** What occurs in a string occurs in any longer one. */
  lemma OccursInLonger(a: string, b: string, t: string, k: nat)
    requires OccursAt(a, t, k)
    ensures OccursAt(a + b, t, k)
  {
    assert (a + b)[..|a|] == a;
    OccursLater(a + b, |a|, t, k);
  }

  /** What occurs in the front of a string occurs in it. */
  lemma OccursInHead(a: string, b: string, t: string, k: nat)
    requires k + |t| <= |a| && OccursAt(a + b, t, k)
    ensures OccursAt(a, t, k)
  {
    assert (a + b)[k..][..|t|] == a[k..][..|t|];
  }

  /** What occurs in the end of a string occurs in it. */
  lemma OccursInTail(a: string, b: string, t: string, k: nat)
    requires |a| <= k && OccursAt(a + b, t, k)
    ensures OccursAt(b, t, k - |a|)
  {
    assert (a + b)[k..] == b[k - |a|..];
  }

  /** Two strings without an opening tag make one together exactly where it straddles them. */
  lemma JoinIsPlainIff(a: string, b: string)
    requires NoOpen(a) && NoOpen(b)
    ensures NoOpen(a + b) <==> !Straddles(a, b)
  {
    if !Straddles(a, b) {
      forall k: nat, long ensures !OccursAt(a + b, OpenTag(long), k) {
        if OccursAt(a + b, OpenTag(long), k) {
          NoTagAside(a, b, long, k);
        }
      }
    }
  }

  lemma NoTagAside(a: string, b: string, long: bool, k: nat)
    requires NoOpen(a) && NoOpen(b) && OccursAt(a + b, OpenTag(long), k)
    ensures k < |a| < k + |OpenTag(long)|
  {
    var t := OpenTag(long);
    if k >= |a| {
      OccursInTail(a, b, t, k);
    } else if k + |t| <= |a| {
      OccursInHead(a, b, t, k);
    }
  }

  lemma {:induction false} PlainIffNoSeam(before: string, m: Message)
    requires NoOpen(before) && Proper(m)
    ensures NoOpen(before + PlainText(m)) <==> !Seam(before, m)
    decreases m
  {
    JoinIsPlainIff(before, m.text);
    if m.Block? {
      var joined := before + m.text;
      assert before + PlainText(m) == joined + PlainText(m.rest);
      if NoOpen(joined) {
        PlainIffNoSeam(joined, m.rest);
      } else {
        var k: nat, long :| OccursAt(joined, OpenTag(long), k);
        OccursInLonger(joined, PlainText(m.rest), OpenTag(long), k);
      }
    }
    if NoOpen(before) && Straddles(before, m.text) {
      assert !NoOpen(before + m.text);
    }
  }

  /** A second pass changes nothing exactly when no opening tag arises where a block was taken out. */
  lemma StripTwiceIff(m: Message)
    requires Proper(m)
    ensures Strip(Strip(Render(m))) == Strip(Render(m)) <==> !Seam("", m)
  {
    StripRender(m);
    StripKeepsIff(PlainText(m));
    assert NoOpen("");
    PlainIffNoSeam("", m);
    assert "" + PlainText(m) == PlainText(m);
  }

  /** And so for every string, read as the message it is. */
  lemma StripIsIdempotentIff(raw: string)
    ensures Strip(Strip(raw)) == Strip(raw) <==> !Seam("", Parse(raw))
  {
    ParseIsProper(raw);
    StripTwiceIff(Parse(raw));
  }

  /** The tags, spelled out: a block of either spelling goes, with its tags and all they enclose. */
  lemma BlocksOfEitherSpellingGo(text: string, body: string, rest: string)
    requires NoOpen(text)
    ensures NoClose(body, false) ==> Strip(text + "<think>" + body + "</think>" + rest) == text + Strip(rest)
    ensures NoClose(body, true) ==> Strip(text + "<thinking>" + body + "</thinking>" + rest) == text + Strip(rest)
    ensures NoClose(body, false) <==> forall k: nat :: !OccursAt(body, "</think>", k)
    ensures NoClose(body, true) <==> forall k: nat :: !OccursAt(body, "</thinking>", k)
    ensures forall k: nat :: !OccursAt(text, "<think>", k) && !OccursAt(text, "<thinking>", k)
  {
    assert OpenTag(false) == "<think>" && CloseTag(false) == "</think>";
    assert OpenTag(true) == "<thinking>" && CloseTag(true) == "</thinking>";
    assert forall k: nat :: !OccursAt(text, OpenTag(false), k) && !OccursAt(text, OpenTag(true), k);
    if NoClose(body, false) {
      SplitClosed(text, false, body, rest);
    }
    if NoClose(body, true) {
      SplitClosed(text, true, body, rest);
    }
  }

  /** It does arise: one pass puts a new tag together and a second takes the rest. */
  lemma StripCanLeaveATag()
    ensures Strip("<th<think></think>ink>") == "<think>"
    ensures Strip("<think>") == ""
  {
    ShortBlock("<th", "ink>");
    SpelledOut();
    TagAlone();
  }

  /** Two texts too short for a tag around an empty block. */
  lemma ShortBlock(a: string, b: string)
    requires |a| < 7 && |b| < 7
    ensures Strip(a + OpenTag(false) + "" + CloseTag(false) + b) == a + b
  {
    var m := Block(a, false, "", End(b));
    assert Proper(m.rest) && Proper(m);
    StripRender(m);
  }

  lemma SpelledOut()
    ensures "<th" + OpenTag(false) + "" + CloseTag(false) + "ink>" == "<th<think></think>ink>"
    ensures "<th" + "ink>" == "<think>"
  {
  }

  lemma TagAlone()
    ensures Strip("<think>") == ""
  {
    var m := Cut("", false, "");
    StripRender(m);
    assert Render(m) == "<think>";
  }

  // ---- As the source writes it ---------------------------------------------

  /** One turn of the loop: the first opening tag and the end of its block. */
  method NextBlock(raw: string) returns (s: Split)
    ensures s == SplitAt(raw)
  {
    var at := FindOpen(raw);
    if at.None? {
      return Whole;
    }
    var long := StartsWith(raw[at.value..], OpenTag(true));
    var bodyStart := at.value + |OpenTag(long)|;
    var close := Find(raw[bodyStart..], CloseTag(long));
    if close.None? {
      return Unclosed(raw[..at.value], long, raw[bodyStart..]);
    }
    var body := raw[bodyStart..];
    s := Closed(raw[..at.value], long, body[..close.value], body[close.value + |CloseTag(long)|..]);
  }

  /** What one block contributes to the answer. */
  lemma StripByBlock(raw: string, out: string)
    ensures out + Strip(raw) ==
            match SplitAt(raw)
            case Whole => out + raw
            case Unclosed(text, _, _) => out + text
            case Closed(text, _, _, rest) => out + text + Strip(rest)
  {
    match SplitAt(raw)
    case Whole =>
    case Unclosed(_, _, _) =>
    case Closed(text, _, _, rest) => Associates(out, text, Strip(rest));
  }

  method StripThinkBlocks(raw: string) returns (out: string)
    ensures out == Strip(raw)
  {
    out := "";
    var rest := raw;
    while true
      invariant out + Strip(rest) == Strip(raw)
      decreases |rest|
    {
      var block := NextBlock(rest);
      StripByBlock(rest, out);
      match block {
        case Whole => return out + rest;
        case Unclosed(text, _, _) => return out + text;
        case Closed(text, _, _, after) =>
          out := out + text;
          rest := after;
      }
    }
  }
}
