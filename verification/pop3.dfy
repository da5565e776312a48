/**
 * Turning a fetched e-mail into an AT message: the addresses, the optional
 * removal of quoted text from the body, and the `References` header that
 * threads replies (app/models/pop3/receive_pop3_message_job.rb).
 */
module Pop3 {
  import opened Common
  import opened Text
  import opened Messages
  import opened Seqs
  import Routing

  // ---------------------------------------------------------------------
  // Quoted text
  // ---------------------------------------------------------------------

  /** Lines 99-101: a stripped line that ends the kept text. */
  predicate Stops(line: string) {
    line == [] || StartsWith(line, ">") || (StartsWith(line, "On") && EndsWith(line, ":"))
  }

  /** The stripped lines before the first one that stops the scan. */
  function Kept(pieces: seq<string>): (r: seq<string>)
    ensures |r| <= |pieces|
    ensures |r| < |pieces| ==> Stops(Strip(pieces[|r|]))
  {
    if pieces == [] then []
    else
      var line := Strip(pieces[0]);
      if Stops(line) then []
      else
        var rest := Kept(pieces[1..]);
        assert pieces[1..][|rest|..] == pieces[|rest| + 1..];
        [line] + rest
  }

  /** Every kept line is the stripped piece at its place, and none of them stops the scan. */
  lemma {:induction false} KeptPrefix(pieces: seq<string>)
    ensures var r := Kept(pieces);
      forall k :: 0 <= k < |r| ==> r[k] == Strip(pieces[k]) && !Stops(r[k])
    decreases |pieces|
  {
    if pieces != [] && !Stops(Strip(pieces[0])) {
      var r := Kept(pieces);
      var rest := Kept(pieces[1..]);
      KeptPrefix(pieces[1..]);
      forall k | 0 < k < |r| ensures r[k] == Strip(pieces[k]) && !Stops(r[k]) {
        assert r[k] == rest[k - 1];
        assert pieces[k] == pieces[1..][k - 1];
      }
    }
  }

  /** Each line followed by "\n", as lines 102-103 append them to the result. */
  function Terminated(lines: seq<string>): string {
    if lines == [] then [] else lines[0] + "\n" + Terminated(lines[1..])
  }

  /** `remove_quoted_text_or_text_after_first_empty_line`. */
  function RemoveQuoted(text: string): string {
    Strip(Terminated(Kept(Lines(Strip(text)))))
  }

  /** One step of the scan from piece `i`: it stops there, or keeps that line and goes on. */
  lemma KeptStep(pieces: seq<string>, i: nat)
    requires i < |pieces|
    ensures Stops(Strip(pieces[i])) ==> Terminated(Kept(pieces[i..])) == []
    ensures !Stops(Strip(pieces[i])) ==>
      Terminated(Kept(pieces[i..])) == Strip(pieces[i]) + "\n" + Terminated(Kept(pieces[i + 1..]))
  {
    assert pieces[i..][0] == pieces[i] && pieces[i..][1..] == pieces[i + 1..];
    if !Stops(Strip(pieces[i])) {
      var k := [Strip(pieces[i])] + Kept(pieces[i + 1..]);
      assert Kept(pieces[i..]) == k;
      assert k[0] == Strip(pieces[i]) && k[1..] == Kept(pieces[i + 1..]);
    }
  }

  /** The scan of lines 96-105, appending to `result` and stopping at the first stop line. */
  method RemoveQuotedText(text: string) returns (r: string)
    ensures r == RemoveQuoted(text)
  {
    var result := "";
    var pieces := Lines(Strip(text));
    var i := 0;
    assert pieces[0..] == pieces;
    while i < |pieces|
      invariant 0 <= i <= |pieces|
      invariant result + Terminated(Kept(pieces[i..])) == Terminated(Kept(pieces))
    {
      var line := Strip(pieces[i]);
      KeptStep(pieces, i);
      if Stops(line) {
        break;
      }
      ghost var rest := Terminated(Kept(pieces[i + 1..]));
      AppendAssoc(result, line, "\n");
      AppendAssoc(result, line + "\n", rest);
      result := result + line + "\n";
      i := i + 1;
    }
    assert Terminated(Kept(pieces[i..])) == [] by {
      if i == |pieces| {
        assert pieces[i..] == [];
      }
    }
    assert result == result + [];
    r := Strip(result);
  }

  /** A kept line: not empty, no line break inside, no white space at either end, not a stop line. */
  predicate KeptLine(line: string) {
    line != [] && '\n' !in line && !IsSpace(line[0]) && !IsSpace(line[|line| - 1]) && !Stops(line)
  }

  /** Stripping a piece of `lines` removes its line break. */
  lemma StripDropsBreak(p: string)
    requires p != [] && '\n' !in p[..|p| - 1]
    ensures '\n' !in Strip(p)
  {
    var r := Strip(p);
    StripInnerFrom(p);
    forall j | 0 <= j < |r| ensures r[j] != '\n' {
      if j == |r| - 1 {
        assert !IsSpace(r[j]);
      } else {
        assert r[j] in p[..|p| - 1];
      }
    }
  }

  /** Every character of `Strip(p)` but its last one comes from `p` without its last character. */
  lemma StripInnerFrom(p: string)
    requires p != []
    ensures forall j :: 0 <= j < |Strip(p)| - 1 ==> Strip(p)[j] in p[..|p| - 1]
  {
    var l := LStrip(p);
    var r := Strip(p);
    var d := |p| - |l|;
    var body := p[..|p| - 1];
    assert l == p[d..] && r == l[..|r|];
    forall j | 0 <= j < |r| - 1 ensures r[j] in body {
      assert r[j] == p[d + j] == body[d + j];
    }
  }

  /** Every line the scan keeps is a kept line. */
  lemma KeptAreKeptLines(s: string)
    ensures forall k :: 0 <= k < |Kept(Lines(s))| ==> KeptLine(Kept(Lines(s))[k])
  {
    var pieces := Lines(s);
    var kept := Kept(pieces);
    KeptPrefix(pieces);
    forall k | 0 <= k < |kept| ensures KeptLine(kept[k]) {
      StripDropsBreak(pieces[k]);
    }
  }

  /** The kept lines, each but the last followed by a line break: how `lines` cuts up their join. */
  function Relined(lines: seq<string>): seq<string>
    requires lines != []
  {
    if |lines| == 1 then lines else [lines[0] + "\n"] + Relined(lines[1..])
  }

  lemma {:induction false} TerminatedJoin(lines: seq<string>)
    requires lines != []
    ensures Terminated(lines) == Join(lines, '\n') + "\n"
    decreases |lines|
  {
    if |lines| > 1 {
      TerminatedJoin(lines[1..]);
      assert lines[0] + "\n" + (Join(lines[1..], '\n') + "\n") == lines[0] + ['\n'] + Join(lines[1..], '\n') + "\n";
    } else {
      assert lines[1..] == [];
    }
  }

  lemma {:induction false} JoinEnds(lines: seq<string>)
    requires lines != [] && forall k :: 0 <= k < |lines| ==> KeptLine(lines[k])
    ensures var j := Join(lines, '\n');
      j != [] && !IsSpace(j[0]) && !IsSpace(j[|j| - 1])
    decreases |lines|
  {
    if |lines| > 1 {
      JoinEnds(lines[1..]);
    }
  }

  /** Joined kept lines, terminated, strip back to their join. */
  lemma StripTerminated(lines: seq<string>)
    requires forall k :: 0 <= k < |lines| ==> KeptLine(lines[k])
    ensures Strip(Terminated(lines)) == Join(lines, '\n')
  {
    if lines != [] {
      TerminatedJoin(lines);
      JoinEnds(lines);
      StripAppendSpace(Join(lines, '\n'), '\n');
      StripStripped(Join(lines, '\n'));
    }
  }

  /** `lines` cuts the join of kept lines back into them, each but the last with its line break. */
  lemma {:induction false} LinesOfJoin(lines: seq<string>)
    requires lines != [] && forall k :: 0 <= k < |lines| ==> KeptLine(lines[k])
    ensures Lines(Join(lines, '\n')) == Relined(lines)
    decreases |lines|
  {
    var first := lines[0];
    if |lines| == 1 {
      assert IndexOf(first, '\n') == None;
    } else {
      var rest := Join(lines[1..], '\n');
      var s := first + ['\n'] + rest;
      IndexOfAfter(first, '\n', rest);
      assert s[..|first| + 1] == first + "\n";
      assert s[|first| + 1..] == rest;
      LinesOfJoin(lines[1..]);
    }
  }

  /** Scanning the relined kept lines keeps all of them. */
  lemma {:induction false} KeptRelined(lines: seq<string>)
    requires lines != [] && forall k :: 0 <= k < |lines| ==> KeptLine(lines[k])
    ensures Kept(Relined(lines)) == lines
    decreases |lines|
  {
    StripAppendSpace(lines[0], '\n');
    StripStripped(lines[0]);
    if |lines| > 1 {
      KeptRelined(lines[1..]);
      assert Relined(lines)[1..] == Relined(lines[1..]);
    }
  }

  /** Removing quoted text twice removes nothing more. */
  lemma RemoveQuotedIdempotent(text: string)
    ensures RemoveQuoted(RemoveQuoted(text)) == RemoveQuoted(text)
  {
    var kept := Kept(Lines(Strip(text)));
    KeptAreKeptLines(Strip(text));
    StripTerminated(kept);
    var once := Join(kept, '\n');
    assert RemoveQuoted(text) == once;
    StripStripped(Strip(Terminated(kept)));
    if kept != [] {
      LinesOfJoin(kept);
      KeptRelined(kept);
    }
  }

  /** No line of the result is one that stops the scan, and the result has no surrounding white space. */
  lemma RemoveQuotedKeepsNoStopLine(text: string)
    ensures var kept := Kept(Lines(Strip(text)));
      && RemoveQuoted(text) == Join(kept, '\n')
      && forall k :: 0 <= k < |kept| ==> !Stops(kept[k]) && '\n' !in kept[k]
  {
    var kept := Kept(Lines(Strip(text)));
    KeptAreKeptLines(Strip(text));
    StripTerminated(kept);
  }

  // ---------------------------------------------------------------------
  // The References header
  // ---------------------------------------------------------------------

  /** The suffix of the references Nuntium writes for a reply to one of its messages. */
  const ReplySuffix: string := "@message_id.nuntium>"

  /** The suffix of every reference Nuntium writes. */
  const NuntiumSuffix: string := ".nuntium>"

  /** Line 71: the header split on ',' and each part stripped; nothing when it is blank. */
  function HeaderRefs(header: Option<string>): (r: seq<string>)
    ensures IsBlank(header) ==> r == []
    ensures !IsBlank(header) ==> r == StripAll(Split(header.value, ','))
  {
    if IsBlank(header) then [] else StripAll(Split(header.value, ','))
  }

  /** Each part stripped, as `map(&:strip)`. */
  function StripAll(parts: seq<string>): (r: seq<string>)
    ensures |r| == |parts| && forall k :: 0 <= k < |parts| ==> r[k] == Strip(parts[k])
  {
    if parts == [] then [] else [Strip(parts[0])] + StripAll(parts[1..])
  }

  /** Line 73 as written: a part is read when it starts with '<' or holds no '@'. */
  predicate Read(ref: string) {
    StartsWith(ref, "<") || '@' !in ref
  }

  /** The character where a suffix of `s` begins. */
  lemma SuffixHead(s: string, suffix: string)
    requires suffix != [] && EndsWith(s, suffix)
    ensures s[|s| - |suffix|] == suffix[0]
  {
    assert s[|s| - |suffix|..][0] == suffix[0];
  }

  /** A reply reference that is read starts with '<' and has its '@' just before "message_id". */
  lemma ReplyBounds(ref: string)
    requires Read(ref) && EndsWith(ref, ReplySuffix)
    ensures StartsWith(ref, "<") && 20 < |ref| && ref[|ref| - 20] == '@'
  {
    SuffixHead(ref, ReplySuffix);
    assert ref[|ref| - 20] in ref;
    assert ref[..1][0] == ref[0];
  }

  /** In a thread reference the first '@' lies after the '<' and before the suffix. */
  lemma ThreadBounds(ref: string, at: nat)
    requires StartsWith(ref, "<") && EndsWith(ref, NuntiumSuffix) && at < |ref| && ref[at] == '@'
    ensures 0 < at < |ref| - 9
  {
    assert ref[..1][0] == ref[0];
    NoAtInSuffix(ref, at);
  }

  /** The text between '@' and the suffix never holds the suffix's characters. */
  lemma NoAtInSuffix(ref: string, at: nat)
    requires EndsWith(ref, NuntiumSuffix) && at < |ref| && ref[at] == '@'
    ensures at < |ref| - |NuntiumSuffix|
  {
    forall j | |ref| - |NuntiumSuffix| <= j < |ref| ensures ref[j] != '@' {
      assert ref[j] == NuntiumSuffix[j - (|ref| - |NuntiumSuffix|)];
    }
  }

  /**
   * Lines 72-78 for one reference, as written. A part ending in the
   * reply suffix names the message replied to; any other part ending in
   * '.nuntium>' records "references_<key>" where the key sits between '@'
   * and the suffix and the value between '<' and '@'. A part with no '@'
   * at all is read too, and then `at_index + 1` raises on nil.
   */
  function ApplyRef(attrs: map<string, string>, ref: string): (r: Result<map<string, string>>)
    ensures !Read(ref) ==> r == Ok(attrs)
    ensures Read(ref) && EndsWith(ref, NuntiumSuffix) && '@' !in ref ==> r.Err?
    ensures r.Err? ==> '@' !in ref && EndsWith(ref, NuntiumSuffix)
  {
    if !Read(ref) then Ok(attrs)
    else if EndsWith(ref, ReplySuffix) then
      ReplyBounds(ref);
      Ok(attrs["reply_to" := ref[1..|ref| - 20]])
    else if EndsWith(ref, NuntiumSuffix) then
      match IndexOf(ref, '@')
      case None => Err("undefined method `+' for nil:NilClass")
      case Some(at) =>
        ThreadBounds(ref, at);
        Ok(attrs["references_" + ref[at + 1..|ref| - 9] := ref[1..at]])
    else Ok(attrs)
  }

  /** The loop of lines 71-79 over the parts, in order; the first raise ends it. */
  function ApplyRefs(attrs: map<string, string>, refs: seq<string>): Result<map<string, string>>
    decreases |refs|
  {
    if refs == [] then Ok(attrs)
    else
      match ApplyRefs(attrs, refs[..|refs| - 1])
      case Err(e) => Err(e)
      case Ok(m) => ApplyRef(m, refs[|refs| - 1])
  }

  /** Once a reference raises, the rest of the header is not read. */
  lemma {:induction false} RaiseEndsLoop(attrs: map<string, string>, refs: seq<string>, i: nat)
    requires i <= |refs| && ApplyRefs(attrs, refs[..i]).Err?
    ensures ApplyRefs(attrs, refs) == ApplyRefs(attrs, refs[..i])
    decreases |refs| - i
  {
    if i == |refs| {
      assert refs[..i] == refs;
    } else {
      var init := refs[..|refs| - 1];
      assert init[..i] == refs[..i];
      RaiseEndsLoop(attrs, init, i);
    }
  }

  /** Lines 70-79 of `perform`: the References header read into the message's custom attributes. */
  method ReadReferences(attrs: map<string, string>, header: Option<string>) returns (r: Result<map<string, string>>)
    ensures r == ApplyRefs(attrs, HeaderRefs(header))
  {
    var refs := HeaderRefs(header);
    r := EachReference(attrs, refs);
  }

  /** The `each` loop of line 71 over the stripped parts; a raise leaves the loop. */
  method EachReference(attrs: map<string, string>, refs: seq<string>) returns (r: Result<map<string, string>>)
    ensures r == ApplyRefs(attrs, refs)
  {
    var m := attrs;
    var i := 0;
    while i < |refs|
      invariant 0 <= i <= |refs|
      invariant ApplyRefs(attrs, refs[..i]) == Ok(m)
    {
      var ref := refs[i];
      assert refs[..i + 1][..i] == refs[..i] && refs[..i + 1][i] == ref;
      var next := ApplyRef(m, ref);
      if next.Err? {
        r := next;
        RaiseEndsLoop(attrs, refs, i + 1);
        return;
      }
      m := next.value;
      i := i + 1;
    }
    assert refs[..i] == refs;
    r := Ok(m);
  }

  /** A part such as "x.nuntium>" makes the loop raise, which aborts the whole mailbox run. */
  lemma BareReferenceRaises()
    ensures ApplyRefs(map[], HeaderRefs(Some("x.nuntium>"))).Err?
  {
    var h := "x.nuntium>";
    BareReferenceIsOnePart(h);
    var parts: seq<string> := [h];
    assert parts[..0] == [];
    assert ApplyRefs(map[], [h]) == ApplyRef(map[], h);
    BareReferenceShape(h);
  }

  lemma BareReferenceShape(h: string)
    requires h == "x.nuntium>"
    ensures '@' !in h && EndsWith(h, NuntiumSuffix)
  {
  }

  lemma BareReferenceIsOnePart(h: string)
    requires h == "x.nuntium>"
    ensures HeaderRefs(Some(h)) == [h]
  {
    assert !IsSpace(h[0]) && !IsSpace(h[|h| - 1]);
    assert IndexOf(h, ',') == None;
    assert Split(h, ',') == [h];
    StripStripped(h);
    assert StripAll([h]) == [h];
  }

  /** Line 73 as evidently intended: only parts of the form "<...@...>" are read. */
  predicate ReadIntended(ref: string) {
    StartsWith(ref, "<") && '@' in ref
  }

  /** One reference, reading only the parts line 73 evidently means to read. */
  function ApplyRefFixed(attrs: map<string, string>, ref: string): (r: map<string, string>)
    ensures !ReadIntended(ref) ==> r == attrs
  {
    if !ReadIntended(ref) then attrs
    else if EndsWith(ref, ReplySuffix) then
      ReplyBounds(ref);
      attrs["reply_to" := ref[1..|ref| - 20]]
    else if EndsWith(ref, NuntiumSuffix) then
      var at := IndexOf(ref, '@').value;
      ThreadBounds(ref, at);
      attrs["references_" + ref[at + 1..|ref| - 9] := ref[1..at]]
    else attrs
  }

  function ApplyRefsFixed(attrs: map<string, string>, refs: seq<string>): map<string, string>
    decreases |refs|
  {
    if refs == [] then attrs
    else ApplyRefFixed(ApplyRefsFixed(attrs, refs[..|refs| - 1]), refs[|refs| - 1])
  }

  /** Wherever the loop as written does not raise, the intended reading gives the same attributes. */
  lemma {:induction false} FixedAgreesWhenNoRaise(attrs: map<string, string>, refs: seq<string>)
    requires ApplyRefs(attrs, refs).Ok?
    ensures ApplyRefsFixed(attrs, refs) == ApplyRefs(attrs, refs).value
    decreases |refs|
  {
    if refs != [] {
      var init := refs[..|refs| - 1];
      assert ApplyRefs(attrs, init).Ok?;
      FixedAgreesWhenNoRaise(attrs, init);
    }
  }

  /** A reply reference built from a message guid gives that guid back as `reply_to`. */
  lemma ReplyToRoundTrip(attrs: map<string, string>, guid: string)
    ensures ApplyRefFixed(attrs, "<" + guid + ReplySuffix) == attrs["reply_to" := guid]
  {
    var ref := "<" + guid + ReplySuffix;
    assert ref[|ref| - 20..] == ReplySuffix;
    assert ref[|ref| - 20] == '@';
    assert ref[1..|ref| - 20] == guid;
  }

  /**
   * A thread reference "<value@key.nuntium>" gives back `value` under
   * "references_key", unless the key is "message_id", which makes it a
   * reply reference.
   */
  lemma ThreadRoundTrip(attrs: map<string, string>, value: string, key: string)
    requires '@' !in value && '@' !in key && key != "message_id"
    ensures ApplyRefFixed(attrs, "<" + value + "@" + key + NuntiumSuffix) == attrs["references_" + key := value]
  {
    ThreadParts(value, key);
  }

  /** How a thread reference built from `value` and `key` reads back. */
  lemma ThreadParts(value: string, key: string)
    requires '@' !in value && '@' !in key && key != "message_id"
    ensures var ref := "<" + value + "@" + key + NuntiumSuffix;
      && ReadIntended(ref) && !EndsWith(ref, ReplySuffix) && EndsWith(ref, NuntiumSuffix)
      && IndexOf(ref, '@') == Some(|value| + 1)
      && ref[|value| + 2..|ref| - 9] == key && ref[1..|value| + 1] == value
  {
    ReplyShape(value, key);
    ThreadSlices(value, key);
  }

  lemma ThreadSlices(value: string, key: string)
    requires '@' !in value
    ensures var ref := "<" + value + "@" + key + NuntiumSuffix;
      && StartsWith(ref, "<") && EndsWith(ref, NuntiumSuffix)
      && IndexOf(ref, '@') == Some(|value| + 1)
      && ref[|value| + 2..|ref| - 9] == key && ref[1..|value| + 1] == value
  {
    var ref := "<" + value + "@" + key + NuntiumSuffix;
    assert ref == ("<" + value) + ['@'] + (key + NuntiumSuffix);
    IndexOfAfter("<" + value, '@', key + NuntiumSuffix);
    assert ref[|ref| - 9..] == NuntiumSuffix;
    assert ref[|value| + 2..|ref| - 9] == key;
    assert ref[1..|value| + 1] == value;
  }

  /** Such a reference ends in the reply suffix exactly when its key is "message_id". */
  lemma ReplyShape(value: string, key: string)
    requires '@' !in value && '@' !in key
    ensures EndsWith("<" + value + "@" + key + NuntiumSuffix, ReplySuffix) <==> key == "message_id"
  {
    var head := "<" + value;
    var tail := key + NuntiumSuffix;
    var ref := "<" + value + "@" + key + NuntiumSuffix;
    SuffixParts();
    assert ref == head + ['@'] + tail;
    if EndsWith(ref, ReplySuffix) {
      assert head[1..] == value;
      ReplyTail(head, tail);
      assert key == tail[..|key|];
    }
    if key == "message_id" {
      ReplyOfMessageId(head);
    }
  }

  lemma ReplyOfMessageId(head: string)
    ensures EndsWith(head + "@" + "message_id" + NuntiumSuffix, ReplySuffix)
  {
    SuffixParts();
    var ref := head + "@" + "message_id" + NuntiumSuffix;
    assert ref == head + ReplySuffix;
    assert ref[|ref| - 20..] == ReplySuffix;
  }

  /** What follows the only '@' of a reference ending in the reply suffix is the rest of that suffix. */
  lemma ReplyTail(head: string, tail: string)
    requires head != [] && head[0] == '<'
    requires '@' !in head[1..] && '@' !in tail
    requires EndsWith(head + ['@'] + tail, ReplySuffix)
    ensures tail == "message_id" + NuntiumSuffix
  {
    var ref := head + ['@'] + tail;
    SuffixParts();
    OnlyAt(head, tail);
    SuffixHead(ref, ReplySuffix);
    var s := |ref| - 20;
    assert s == |head|;
    assert ref[s..] == ['@'] + tail;
    assert (['@'] + tail)[1..] == tail;
  }

  /** The reply suffix is '@', "message_id" and the Nuntium suffix, which holds no '@'. */
  lemma SuffixParts()
    ensures ReplySuffix == "@" + "message_id" + NuntiumSuffix
    ensures ReplySuffix[0] == '@' && ReplySuffix[1..] == "message_id" + NuntiumSuffix
    ensures ("message_id" + NuntiumSuffix)[..10] == "message_id"
    ensures '@' !in NuntiumSuffix && |NuntiumSuffix| == 9
  {
  }

  /** In "<value@key.nuntium>" the only '@' is the one after the value. */
  lemma OnlyAt(head: string, tail: string)
    requires head != [] && head[0] == '<'
    requires '@' !in head[1..] && '@' !in tail
    ensures forall j :: 0 <= j < |head + ['@'] + tail| && j != |head| ==> (head + ['@'] + tail)[j] != '@'
  {
    var ref := head + ['@'] + tail;
    forall j | 0 <= j < |ref| && j != |head| ensures ref[j] != '@' {
      if j == 0 {
      } else if j < |head| {
        assert ref[j] == head[1..][j - 1];
      } else {
        assert ref[j] == tail[j - |head| - 1];
      }
    }
  }

  // ---------------------------------------------------------------------
  // The message built from one e-mail
  // ---------------------------------------------------------------------

  /** The parts of a fetched e-mail the job reads; `body` is what `get_body` extracts. */
  datatype Mail = Mail(
    from: Option<seq<string>>,
    to: Option<seq<string>>,
    subject: Option<string>,
    body: string,
    messageId: Option<string>,
    date: Option<int>,
    references: Option<string>)

  /** Lines 55-60: "mailto://" and the first address, or nothing after the scheme when there is none. */
  function MailAddress(addresses: Option<seq<string>>): (r: string)
    ensures Routing.Protocol(Some(r)) == "mailto"
    ensures addresses.Some? && addresses.value != [] ==> r == "mailto://" + addresses.value[0]
    ensures addresses.None? || addresses.value == [] ==> r == "mailto://"
  {
    var first := match addresses
      case None => ""
      case Some(a) => if a == [] then "" else a[0];
    Routing.ProtocolOfAddress("mailto", first);
    assert "mailto" + "://" + first == "mailto://" + first;
    "mailto://" + first
  }

  /**
   * Lines 55-80: the AT message for one e-mail, with quoted text removed
   * when the channel asks for it and the references read as intended.
   */
  function MailToMessage(mail: Mail, removeQuoted: bool): (m: AtMessage)
    ensures m.from == Some(MailAddress(mail.from)) && m.to == Some(MailAddress(mail.to))
    ensures m.body == Some(if removeQuoted then RemoveQuoted(mail.body) else mail.body)
    ensures m.customAttributes == ApplyRefsFixed(map[], HeaderRefs(mail.references))
    ensures m.subject == mail.subject && m.channelRelativeId == mail.messageId && m.timestamp == mail.date
  {
    AtMessage(Some(MailAddress(mail.from)), Some(MailAddress(mail.to)), mail.subject,
              Some(if removeQuoted then RemoveQuoted(mail.body) else mail.body),
              mail.messageId, mail.date, ApplyRefsFixed(map[], HeaderRefs(mail.references)), None)
  }
}
