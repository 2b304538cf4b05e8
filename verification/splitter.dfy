/** Outbound delivery of long replies: a text over Telegram's practical
    limit is cut into parts of at most 4000 characters, preferring the last
    line break and then the last space inside the first 4000 characters,
    and the parts are sent in order with only the first one threaded as a
    reply (`send_long_message` in src/utils/telegram_utils.py and in the
    older root-level telegram_utils.py, which share the same loop). */
module Outbound {
  import opened Wrappers
  import opened Text

  /** The longest part ever sent. */
  const MaxPartLength: nat := 4000

  /** Where an over-long text is cut: the last newline among its first
      4000 characters, else the last space there, else 4000. */
  function CutIndex(text: string): (k: nat)
    requires |text| > MaxPartLength
    ensures k <= MaxPartLength
    ensures k == MaxPartLength || text[k] == '\n' || text[k] == ' '
  {
    var head := text[..MaxPartLength];
    var newline := RFind(head, '\n');
    if newline != -1 then newline
    else
      var space := RFind(head, ' ');
      if space != -1 then space else MaxPartLength
  }

  /** The cut rule: the last line break in the first 4000 characters wins;
      without one, the last space there; without either, a hard cut at 4000. */
  lemma CutIndexRule(text: string)
    requires |text| > MaxPartLength
    ensures var k := CutIndex(text);
      && (Occurs(text, '\n', 0, MaxPartLength) ==>
            k < MaxPartLength && text[k] == '\n' && !Occurs(text, '\n', k + 1, MaxPartLength))
      && (!Occurs(text, '\n', 0, MaxPartLength) && Occurs(text, ' ', 0, MaxPartLength) ==>
            k < MaxPartLength && text[k] == ' ' && !Occurs(text, ' ', k + 1, MaxPartLength))
      && (!Occurs(text, '\n', 0, MaxPartLength) && !Occurs(text, ' ', 0, MaxPartLength) ==>
            k == MaxPartLength)
  {
    var head := text[..MaxPartLength];
    RFindLast(head, '\n');
    RFindLast(head, ' ');
  }

  /** Some character of `text[lo..hi]` is `c`. */
  predicate Occurs(text: string, c: char, lo: nat, hi: nat)
    requires hi <= |text|
  {
    exists j :: lo <= j < hi && text[j] == c
  }

  /** What the rest of the text is after a cut: the leading whitespace is
      dropped, so a cut at a newline or space never starts the next part
      with it. The rest is always shorter than the text. */
  function RestAfterCut(text: string): (rest: string)
    requires |text| > MaxPartLength
    ensures |rest| < |text|
  {
    var k := CutIndex(text);
    var rest := LStrip(text[k..]);
    assert k == 0 ==> IsSpace(text[k..][0]);
    rest
  }

  /** The parts `send_long_message` sends, in order. */
  function SplitParts(text: string): seq<string>
    decreases |text|
  {
    if text == [] then []
    else if |text| > MaxPartLength then
      [text[..CutIndex(text)]] + SplitParts(RestAfterCut(text))
    else [text]
  }

  /** The splitting loop of `send_long_message`. */
  method SplitMessage(text: string) returns (parts: seq<string>)
    ensures parts == SplitParts(text)
  {
    parts := [];
    var rest := text;
    while rest != []
      invariant parts + SplitParts(rest) == SplitParts(text)
      decreases |rest|
    {
      if |rest| > MaxPartLength {
        var cut := CutIndex(rest);
        PartsStep(parts, rest);
        parts := parts + [rest[..cut]];
        rest := LStrip(rest[cut..]);
      } else {
        PartsLast(parts, rest);
        parts := parts + [rest];
        rest := [];
      }
    }
  }

  lemma PartsStep(parts: seq<string>, rest: string)
    requires |rest| > MaxPartLength
    ensures parts + SplitParts(rest)
         == (parts + [rest[..CutIndex(rest)]]) + SplitParts(LStrip(rest[CutIndex(rest)..]))
  {
    var head := [rest[..CutIndex(rest)]];
    var tail := SplitParts(RestAfterCut(rest));
    assert SplitParts(rest) == head + tail;
    assert parts + (head + tail) == (parts + head) + tail;
  }

  lemma PartsLast(parts: seq<string>, rest: string)
    requires 0 < |rest| <= MaxPartLength
    ensures parts + SplitParts(rest) == (parts + [rest]) + SplitParts([])
  {
  }

  /** No part is longer than 4000 characters; a non-empty text of at most
      4000 characters goes out whole, and nothing is sent for empty text. */
  lemma {:induction false} SplitPartsBounded(text: string)
    ensures forall i :: 0 <= i < |SplitParts(text)| ==> |SplitParts(text)[i]| <= MaxPartLength
    ensures SplitParts(text) == [] <==> text == []
    ensures 0 < |text| <= MaxPartLength ==> SplitParts(text) == [text]
    decreases |text|
  {
    if |text| > MaxPartLength {
      SplitPartsBounded(RestAfterCut(text));
    }
  }

  /** The non-whitespace characters of a text, in order. */
  function Visible(s: string): string
    decreases |s|
  {
    if s == [] then []
    else if IsSpace(s[|s| - 1]) then Visible(s[..|s| - 1])
    else Visible(s[..|s| - 1]) + [s[|s| - 1]]
  }

  /** All parts laid end to end. */
  function Concat(parts: seq<string>): string
    decreases |parts|
  {
    if parts == [] then [] else parts[0] + Concat(parts[1..])
  }

  lemma {:induction false} VisibleAppend(a: string, b: string)
    ensures Visible(a + b) == Visible(a) + Visible(b)
    decreases |b|
  {
    if b != [] {
      assert (a + b)[..|a + b| - 1] == a + b[..|b| - 1];
      VisibleAppend(a, b[..|b| - 1]);
    } else {
      assert a + b == a;
    }
  }

  lemma {:induction false} VisibleOfSpaces(s: string)
    requires forall i :: 0 <= i < |s| ==> IsSpace(s[i])
    ensures Visible(s) == []
    decreases |s|
  {
    if s != [] {
      VisibleOfSpaces(s[..|s| - 1]);
    }
  }

  lemma VisibleSplitAt(a: string, i: nat)
    requires i <= |a|
    ensures Visible(a) == Visible(a[..i]) + Visible(a[i..])
  {
    assert a == a[..i] + a[i..];
    VisibleAppend(a[..i], a[i..]);
  }

  /** `lstrip()` never removes a visible character. */
  lemma VisibleLStrip(t: string)
    ensures Visible(LStrip(t)) == Visible(t)
  {
    var m := |t| - |LStrip(t)|;
    LStripRemovesSpace(t);
    VisibleSplitAt(t, m);
    VisibleOfSpaces(t[..m]);
  }

  /** One cut loses only the whitespace at the head of the rest. */
  lemma VisibleAcrossCut(text: string)
    requires |text| > MaxPartLength
    ensures Visible(text) == Visible(text[..CutIndex(text)]) + Visible(RestAfterCut(text))
  {
    var k := CutIndex(text);
    VisibleSplitAt(text, k);
    VisibleLStrip(text[k..]);
  }

  /** Splitting loses only whitespace: the parts laid end to end carry every
      other character of the text, in the original order. */
  lemma {:induction false} SplitKeepsVisibleText(text: string)
    ensures Visible(Concat(SplitParts(text))) == Visible(text)
    decreases |text|
  {
    if |text| > MaxPartLength {
      var head := text[..CutIndex(text)];
      var rest := RestAfterCut(text);
      assert Concat(SplitParts(text)) == head + Concat(SplitParts(rest));
      VisibleAppend(head, Concat(SplitParts(rest)));
      SplitKeepsVisibleText(rest);
      VisibleAcrossCut(text);
    } else if text != [] {
      assert SplitParts(text) == [text];
      assert Concat([text]) == text + Concat([]);
      assert text + [] == text;
    }
  }

  /** A text whose first 4000 characters hold exactly one line break, at the
      very start, produces an empty first part. */
  lemma LeadingBreakGivesEmptyPart(text: string)
    requires |text| > MaxPartLength && text[0] == '\n'
    requires forall j :: 0 < j < MaxPartLength ==> text[j] != '\n'
    ensures SplitParts(text)[0] == []
  {
    CutIndexRule(text);
  }

  /** One `send_message` call: the part's text and the message it replies to. */
  datatype Delivery = Delivery(text: string, replyTo: Option<int>)

  /** The calls `send_long_message` makes for its parts: every part in order,
      the reply target only on the first part and only when it is truthy. */
  function Deliveries(parts: seq<string>, replyTo: Option<int>): (r: seq<Delivery>)
    ensures |r| == |parts|
    ensures forall i :: 0 <= i < |r| ==> r[i].text == parts[i]
    ensures forall i :: 0 <= i < |r| ==>
              (r[i].replyTo.Some? <==> i == 0 && TruthyInt(replyTo))
    ensures forall i :: 0 <= i < |r| && r[i].replyTo.Some? ==> r[i].replyTo == replyTo
  {
    seq(|parts|, i requires 0 <= i < |parts| =>
      Delivery(EscapeMarkdown(parts[i]), if i == 0 && TruthyInt(replyTo) then replyTo else None))
  }

  /** `_escape_markdown`: a hook kept for a future Markdown V2 mode; as
      written it returns its argument, so parts are sent unchanged. */
  function EscapeMarkdown(text: string): (r: string)
    ensures r == text
  {
    text
  }

  /** The sending loop of `send_long_message`: one call per part, in order. */
  method DeliverParts(parts: seq<string>, replyTo: Option<int>) returns (sent: seq<Delivery>)
    ensures sent == Deliveries(parts, replyTo)
  {
    sent := [];
    for i := 0 to |parts|
      invariant |sent| == i
      invariant forall j :: 0 <= j < i ==> sent[j] == Deliveries(parts, replyTo)[j]
    {
      var replyTarget := if i == 0 && TruthyInt(replyTo) then replyTo else None;
      sent := sent + [Delivery(EscapeMarkdown(parts[i]), replyTarget)];
    }
  }

  /** `send_long_message`: split, then send the parts in order. */
  method SendLongMessage(text: string, replyTo: Option<int>) returns (sent: seq<Delivery>)
    ensures sent == Deliveries(SplitParts(text), replyTo)
  {
    var parts := SplitMessage(text);
    sent := DeliverParts(parts, replyTo);
  }
}
