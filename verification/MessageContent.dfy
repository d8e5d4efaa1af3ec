/** The message-content tree and the two provider walkers over it:
    Signal's collectors and WhatsApp's payload builder. */
module MessageContent {
  import opened Prelude

  datatype Content =
    | Text(text: string)
    | Attachment(mediaRef: string, mime: string, caption: Option<string>)
    | Mixed(parts: seq<Content>)

  /** The two capability flags the content check consults. */
  datatype Capabilities = Capabilities(text: bool, attachments: bool)

  datatype Denied = TextDenied | AttachmentsDenied

  // ----- The tree as flat lists --------------------------------------

  function Leaves(c: Content): seq<Content>
    decreases c, 1
  {
    match c
    case Mixed(parts) => LeavesOf(parts)
    case _ => [c]
  }

  function LeavesOf(parts: seq<Content>): seq<Content>
    decreases parts, 0
  {
    if parts == [] then [] else Leaves(parts[0]) + LeavesOf(parts[1..])
  }

  /** The attachments of a list of leaves, in order. */
  function Attachments(leaves: seq<Content>): seq<Content> {
    if leaves == [] then []
    else (if leaves[0].Attachment? then [leaves[0]] else []) + Attachments(leaves[1..])
  }

  function Refs(attachments: seq<Content>): (r: seq<string>)
    requires forall a <- attachments :: a.Attachment?
  {
    seq(|attachments|, i requires 0 <= i < |attachments| => attachments[i].mediaRef)
  }

  // ----- as_text and check_capabilities ------------------------------

  function Join(lines: seq<string>): string {
    if lines == [] then ""
    else if |lines| == 1 then lines[0]
    else lines[0] + "\n" + Join(lines[1..])
  }

  function AsText(c: Content): string
    decreases c, 1
  {
    match c
    case Text(t) => t
    case Attachment(_, _, caption) => if caption.Some? then caption.value else ""
    case Mixed(parts) => Join(Lines(parts))
  }

  function Line(p: Content): seq<string>
    decreases p, 2
  {
    if AsText(p) == "" then [] else [AsText(p)]
  }

  /** The non-empty texts of a list of parts. */
  function Lines(parts: seq<Content>): seq<string>
    decreases parts, 0
  {
    if parts == [] then []
    else Line(parts[0]) + Lines(parts[1..])
  }

  function CheckCapabilities(c: Content, caps: Capabilities): Result<(), Denied>
    decreases c, 1
  {
    match c
    case Text(_) => if caps.text then Ok(()) else Err(TextDenied)
    case Attachment(_, _, _) => if caps.attachments then Ok(()) else Err(AttachmentsDenied)
    case Mixed(parts) => CheckParts(parts, caps)
  }

  function CheckParts(parts: seq<Content>, caps: Capabilities): Result<(), Denied>
    decreases parts, 0
  {
    if parts == [] then Ok(())
    else
      var r := CheckCapabilities(parts[0], caps);
      if r.Err? then r else CheckParts(parts[1..], caps)
  }

  predicate Enabled(leaf: Content, caps: Capabilities) {
    (leaf.Text? ==> caps.text) && (leaf.Attachment? ==> caps.attachments)
  }

  /** The error names the kind of the first disabled leaf. */
  ghost predicate NamesFirst(e: Denied, leaves: seq<Content>, caps: Capabilities) {
    exists i :: 0 <= i < |leaves| && !Enabled(leaves[i], caps)
      && (forall j :: 0 <= j < i ==> Enabled(leaves[j], caps))
      && e == (if leaves[i].Text? then TextDenied else AttachmentsDenied)
  }

  /** What the check answers, read off the leaves alone. */
  ghost predicate Verdict(r: Result<(), Denied>, leaves: seq<Content>, caps: Capabilities) {
    match r
    case Ok(_) => forall leaf <- leaves :: Enabled(leaf, caps)
    case Err(e) => NamesFirst(e, leaves, caps)
  }

  /** The tree check succeeds exactly when every leaf kind is enabled; otherwise the error is
      that of the first disabled leaf from the left. */
  lemma {:induction false} CheckDecidesLeaves(c: Content, caps: Capabilities)
    ensures Verdict(CheckCapabilities(c, caps), Leaves(c), caps)
    decreases c, 1
  {
    if c.Mixed? {
      CheckDecidesParts(c.parts, caps);
    } else {
      assert Leaves(c)[0] == c;
    }
  }

  lemma FirstIsDisabled(e: Denied, leaves: seq<Content>, caps: Capabilities)
    requires NamesFirst(e, leaves, caps)
    ensures exists leaf :: leaf in leaves && !Enabled(leaf, caps)
  {
    var i :| 0 <= i < |leaves| && !Enabled(leaves[i], caps);
    assert leaves[i] in leaves;
  }

  lemma FirstIsUnique(e: Denied, f: Denied, leaves: seq<Content>, caps: Capabilities)
    requires NamesFirst(e, leaves, caps) && NamesFirst(f, leaves, caps)
    ensures e == f
  {
    var i :| 0 <= i < |leaves| && !Enabled(leaves[i], caps)
      && (forall j :: 0 <= j < i ==> Enabled(leaves[j], caps))
      && e == (if leaves[i].Text? then TextDenied else AttachmentsDenied);
    var k :| 0 <= k < |leaves| && !Enabled(leaves[k], caps)
      && (forall j :: 0 <= j < k ==> Enabled(leaves[j], caps))
      && f == (if leaves[k].Text? then TextDenied else AttachmentsDenied);
    assert i == k;
  }

  lemma {:induction false} CheckDecidesParts(parts: seq<Content>, caps: Capabilities)
    ensures Verdict(CheckParts(parts, caps), LeavesOf(parts), caps)
    decreases parts, 0
  {
    if parts != [] {
      CheckDecidesLeaves(parts[0], caps);
      CheckDecidesParts(parts[1..], caps);
      var a, b := Leaves(parts[0]), LeavesOf(parts[1..]);
      if CheckCapabilities(parts[0], caps).Err? {
        DeniedEarly(CheckCapabilities(parts[0], caps), a, b, caps);
      } else {
        DecidedLate(CheckParts(parts[1..], caps), a, b, caps);
      }
    }
  }

  lemma DeniedEarly(r: Result<(), Denied>, a: seq<Content>, b: seq<Content>, caps: Capabilities)
    requires r.Err? && Verdict(r, a, caps)
    ensures Verdict(r, a + b, caps)
  {
    assert forall i :: 0 <= i < |a| ==> (a + b)[i] == a[i];
  }

  lemma DecidedLate(r: Result<(), Denied>, a: seq<Content>, b: seq<Content>, caps: Capabilities)
    requires Verdict(Ok(()), a, caps) && Verdict(r, b, caps)
    ensures Verdict(r, a + b, caps)
  {
    if r.Err? {
      var i :| 0 <= i < |b| && !Enabled(b[i], caps)
        && (forall j :: 0 <= j < i ==> Enabled(b[j], caps))
        && r.error == (if b[i].Text? then TextDenied else AttachmentsDenied);
      assert (a + b)[|a| + i] == b[i];
      assert forall j :: 0 <= j < |a| + i ==> (a + b)[j] == if j < |a| then a[j] else b[j - |a|];
    }
  }

  // ----- The text of a tree is the text of its leaves --------------------

  function LeafText(leaf: Content): string {
    match leaf
    case Text(t) => t
    case Attachment(_, _, caption) => if caption.Some? then caption.value else ""
    case Mixed(_) => ""
  }

  /** The non-empty texts and captions of the leaves, in order. */
  function LeafLines(leaves: seq<Content>): seq<string> {
    if leaves == [] then []
    else (if LeafText(leaves[0]) == "" then [] else [LeafText(leaves[0])]) + LeafLines(leaves[1..])
  }

  lemma {:induction false} LeafLinesAppend(a: seq<Content>, b: seq<Content>)
    ensures LeafLines(a + b) == LeafLines(a) + LeafLines(b)
    decreases |a|
  {
    if a == [] {
      assert a + b == b;
    } else {
      LeafLinesAppend(a[1..], b);
      assert (a + b)[0] == a[0] && (a + b)[1..] == a[1..] + b;
      Assoc(if LeafText(a[0]) == "" then [] else [LeafText(a[0])], LeafLines(a[1..]), LeafLines(b));
    }
  }

  lemma {:induction false} NoEmptyLines(leaves: seq<Content>)
    ensures forall l <- LeafLines(leaves) :: l != ""
  {
    if leaves != [] {
      NoEmptyLines(leaves[1..]);
    }
  }

  lemma {:induction false} JoinAppend(a: seq<string>, b: seq<string>)
    ensures Join(a + b) == if a == [] then Join(b) else if b == [] then Join(a) else Join(a) + "\n" + Join(b)
    decreases |a|
  {
    if a == [] {
      assert a + b == b;
    } else if b == [] {
      assert a + b == a;
    } else if |a| > 1 {
      JoinAppend(a[1..], b);
      assert (a + b)[1..] == a[1..] + b;
    } else {
      assert (a + b)[1..] == b;
    }
  }

  lemma JoinOfNonEmpty(lines: seq<string>)
    requires forall l <- lines :: l != ""
    ensures Join(lines) == "" <==> lines == []
  {
    if lines != [] {
      assert lines[0] in lines;
    }
  }

  /** The text of a tree, however nested, is that of its leaves: the non-empty texts and captions, left
      to right, one per line. */
  lemma {:induction false} AsTextIsLeafLines(c: Content)
    ensures AsText(c) == Join(LeafLines(Leaves(c)))
    decreases c, 1
  {
    if c.Mixed? {
      LinesJoinLeafLines(c.parts);
    } else {
      assert LeafText(c) == AsText(c) && [c][1..] == [];
    }
  }

  lemma {:induction false} LinesJoinLeafLines(parts: seq<Content>)
    ensures Join(Lines(parts)) == Join(LeafLines(LeavesOf(parts)))
    ensures Lines(parts) == [] <==> LeafLines(LeavesOf(parts)) == []
    decreases parts, 0
  {
    if parts != [] {
      var here, rest := LeafLines(Leaves(parts[0])), LeafLines(LeavesOf(parts[1..]));
      AsTextIsLeafLines(parts[0]);
      LinesJoinLeafLines(parts[1..]);
      LeafLinesAppend(Leaves(parts[0]), LeavesOf(parts[1..]));
      NoEmptyLines(Leaves(parts[0]));
      JoinOfNonEmpty(here);
      JoinAppend(here, rest);
      JoinAppend(Line(parts[0]), Lines(parts[1..]));
    }
  }

  // ----- Signal: collect_text and collect_attachments ------------------

  lemma {:induction false} LinesSnoc(parts: seq<Content>, p: Content)
    ensures Lines(parts + [p]) == Lines(parts) + Line(p)
    decreases |parts|
  {
    if parts == [] {
      assert parts + [p] == [p] && [p][1..] == [];
      assert Line(p) + [] == Line(p) && [] + Line(p) == Line(p);
    } else {
      LinesSnoc(parts[1..], p);
      assert (parts + [p])[1..] == parts[1..] + [p] && (parts + [p])[0] == parts[0];
      Assoc(Line(parts[0]), Lines(parts[1..]), Line(p));
    }
  }

  /** Signal's text collector agrees with the tree's own text on every tree. */
  method CollectText(c: Content) returns (text: string)
    ensures text == AsText(c)
    decreases c
  {
    match c {
      case Text(t) => text := t;
      case Attachment(_, _, caption) => text := if caption.Some? then caption.value else "";
      case Mixed(parts) =>
        var lines: seq<string> := [];
        for i := 0 to |parts|
          invariant lines == Lines(parts[..i])
        {
          var p := parts[i];
          var t: string;
          match p {
            case Text(s) => t := s;
            case Attachment(_, _, caption) => t := if caption.Some? then caption.value else "";
            case Mixed(_) => t := CollectText(p);
          }
          LinesSnoc(parts[..i], p);
          assert parts[..i + 1] == parts[..i] + [p];
          if t != "" {
            lines := lines + [t];
          } else {
            assert lines + [] == lines;
          }
        }
        assert parts[..|parts|] == parts;
        text := Join(lines);
    }
  }

  lemma {:induction false} AttachmentsAppend(a: seq<Content>, b: seq<Content>)
    ensures Attachments(a + b) == Attachments(a) + Attachments(b)
    decreases |a|
  {
    if a == [] {
      assert a + b == b;
    } else {
      AttachmentsAppend(a[1..], b);
      assert (a + b)[1..] == a[1..] + b;
    }
  }

  lemma AttachmentsAre(leaves: seq<Content>)
    ensures forall a <- Attachments(leaves) :: a.Attachment?
  {
  }

  lemma {:induction false} LeavesSnoc(parts: seq<Content>, p: Content)
    ensures LeavesOf(parts + [p]) == LeavesOf(parts) + Leaves(p)
    decreases |parts|
  {
    if parts == [] {
      assert parts + [p] == [p];
      assert [p][1..] == [];
    } else {
      LeavesSnoc(parts[1..], p);
      assert (parts + [p])[1..] == parts[1..] + [p];
      assert (parts + [p])[0] == parts[0];
    }
  }

  /** The media references of a tree, left to right. */
  function MediaRefs(c: Content): seq<string> {
    AttachmentsAre(Leaves(c));
    Refs(Attachments(Leaves(c)))
  }

  function MediaRefsOf(parts: seq<Content>): seq<string> {
    AttachmentsAre(LeavesOf(parts));
    Refs(Attachments(LeavesOf(parts)))
  }

  lemma MediaRefsSnoc(parts: seq<Content>, p: Content)
    ensures MediaRefsOf(parts + [p]) == MediaRefsOf(parts) + MediaRefs(p)
  {
    LeavesSnoc(parts, p);
    AttachmentsAppend(LeavesOf(parts), Leaves(p));
    AttachmentsAre(LeavesOf(parts));
    AttachmentsAre(Leaves(p));
    assert MediaRefsOf(parts + [p]) == Refs(Attachments(LeavesOf(parts) + Leaves(p)));
  }

  /** The walker pushes the references of the tree onto what the caller collected before. */
  method PushAttachments(c: Content, collected: seq<string>) returns (acc: seq<string>)
    ensures acc == collected + MediaRefs(c)
    decreases c
  {
    match c {
      case Text(_) =>
        acc := collected;
      case Attachment(mediaRef, _, _) =>
        acc := collected + [mediaRef];
        assert Attachments([c]) == [c] by { assert [c][1..] == []; }
      case Mixed(parts) =>
        acc := collected;
        for i := 0 to |parts|
          invariant acc == collected + MediaRefsOf(parts[..i])
        {
          acc := PushAttachments(parts[i], acc);
          MediaRefsSnoc(parts[..i], parts[i]);
          TakeSnoc(parts, i);
          Assoc(collected, MediaRefsOf(parts[..i]), MediaRefs(parts[i]));
        }
        assert parts[..|parts|] == parts;
    }
  }

  // ----- WhatsApp: push_payloads ---------------------------------------

  datatype MediaKind = Image | Audio | Video | Document

  datatype Payload =
    | TextBody(to: string, body: string)
    | Media(to: string, kind: MediaKind, id: string, caption: Option<string>)

  /** Everything before the first `/` of a mime type. */
  function Head(mime: string): string {
    if mime == "" || mime[0] == '/' then "" else [mime[0]] + Head(mime[1..])
  }

  function AttachmentKind(mime: string): MediaKind {
    var head := Head(mime);
    if head == "image" then Image
    else if head == "audio" then Audio
    else if head == "video" then Video
    else Document
  }

  function MediaPayload(a: Content, to: string): Payload
    requires a.Attachment?
  {
    Media(to, AttachmentKind(a.mime), a.mediaRef, a.caption)
  }

  function DirectMedia(parts: seq<Content>, to: string): seq<Payload> {
    if parts == [] then []
    else DirectMedia(Init(parts), to) + (if Last(parts).Attachment? then [MediaPayload(Last(parts), to)] else [])
  }

  /** The texts directly under a `Mixed` node, merged into one body. */
  function Merged(parts: seq<Content>): string {
    if parts == [] then ""
    else if !Last(parts).Text? then Merged(Init(parts))
    else
      var buffer := Merged(Init(parts));
      (if buffer == "" then "" else buffer + "\n") + Last(parts).text
  }

  function NestedPayloads(parts: seq<Content>, to: string): seq<Payload>
    decreases parts, 0
  {
    if parts == [] then []
    else NestedPayloads(Init(parts), to) + (if Last(parts).Mixed? then Payloads(Last(parts), to) else [])
  }

  function MergedBody(parts: seq<Content>, to: string): seq<Payload> {
    if Merged(parts) == "" then [] else [TextBody(to, Merged(parts))]
  }

  function Payloads(c: Content, to: string): seq<Payload>
    decreases c, 1
  {
    match c
    case Text(text) => [TextBody(to, text)]
    case Attachment(_, _, _) => [MediaPayload(c, to)]
    case Mixed(parts) => NestedPayloads(parts, to) + MergedBody(parts, to) + DirectMedia(parts, to)
  }

  /** How the three collections of a `Mixed` node grow by one part. */
  lemma PartStep(parts: seq<Content>, p: Content, to: string)
    ensures NestedPayloads(parts + [p], to) == NestedPayloads(parts, to) + (if p.Mixed? then Payloads(p, to) else [])
    ensures DirectMedia(parts + [p], to) == DirectMedia(parts, to) + (if p.Attachment? then [MediaPayload(p, to)] else [])
    ensures Merged(parts + [p])
      == if !p.Text? then Merged(parts) else (if Merged(parts) == "" then "" else Merged(parts) + "\n") + p.text
  {
    assert Init(parts + [p]) == parts && Last(parts + [p]) == p;
  }

  /** The payload builder: nested trees first, then one body of merged texts, then attachments. */
  method PushPayloads(c: Content, to: string, before: seq<Payload>) returns (out: seq<Payload>)
    ensures out == before + Payloads(c, to)
    decreases c, 1
  {
    match c {
      case Text(text) => out := before + [TextBody(to, text)];
      case Attachment(_, _, _) => out := before + [MediaPayload(c, to)];
      case Mixed(parts) =>
        var buffer: string;
        var attachments: seq<Content>;
        out, buffer, attachments := PushNested(parts, to, before);
        Assoc(before, NestedPayloads(parts, to), MergedBody(parts, to));
        Assoc(before, NestedPayloads(parts, to) + MergedBody(parts, to), DirectMedia(parts, to));
        if buffer != "" {
          out := out + [TextBody(to, buffer)];
        } else {
          assert out + [] == out;
        }
        out := PushMedia(parts, attachments, to, out);
    }
  }

  /** What the loop over the parts has gathered so far. */
  predicate Gathered(out: seq<Payload>, buffer: string, attachments: seq<Content>, before: seq<Payload>,
                     parts: seq<Content>, to: string) {
    && out == before + NestedPayloads(parts, to)
    && buffer == Merged(parts)
    && DirectMedia(attachments, to) == DirectMedia(parts, to)
  }

  lemma GatherText(out: seq<Payload>, buffer: string, attachments: seq<Content>, before: seq<Payload>,
                   parts: seq<Content>, to: string, p: Content)
    requires Gathered(out, buffer, attachments, before, parts, to) && p.Text?
    ensures Gathered(out, (if buffer == "" then "" else buffer + "\n") + p.text, attachments, before, parts + [p], to)
  {
    PartStep(parts, p, to);
    assert NestedPayloads(parts, to) + [] == NestedPayloads(parts, to);
    assert DirectMedia(parts, to) + [] == DirectMedia(parts, to);
  }

  lemma GatherAttachment(out: seq<Payload>, buffer: string, attachments: seq<Content>, before: seq<Payload>,
                         parts: seq<Content>, to: string, p: Content)
    requires Gathered(out, buffer, attachments, before, parts, to) && p.Attachment?
    ensures Gathered(out, buffer, attachments + [p], before, parts + [p], to)
  {
    PartStep(parts, p, to);
    PartStep(attachments, p, to);
    assert NestedPayloads(parts, to) + [] == NestedPayloads(parts, to);
  }

  lemma GatherNested(out: seq<Payload>, buffer: string, attachments: seq<Content>, before: seq<Payload>,
                     parts: seq<Content>, to: string, p: Content)
    requires Gathered(out, buffer, attachments, before, parts, to) && p.Mixed?
    ensures Gathered(out + Payloads(p, to), buffer, attachments, before, parts + [p], to)
  {
    PartStep(parts, p, to);
    Assoc(before, NestedPayloads(parts, to), Payloads(p, to));
    assert DirectMedia(parts, to) + [] == DirectMedia(parts, to);
  }

  /** The loop over the parts: nested trees are pushed, texts and attachments are set aside. */
  method PushNested(parts: seq<Content>, to: string, before: seq<Payload>)
    returns (out: seq<Payload>, buffer: string, attachments: seq<Content>)
    ensures out == before + NestedPayloads(parts, to)
    ensures buffer == Merged(parts)
    ensures forall a <- attachments :: a.Attachment? && a in parts
    ensures DirectMedia(attachments, to) == DirectMedia(parts, to)
    decreases parts, 0
  {
    out, buffer, attachments := before, "", [];
    assert before + [] == before;
    for i := 0 to |parts|
      invariant Gathered(out, buffer, attachments, before, parts[..i], to)
      invariant forall a <- attachments :: a.Attachment? && a in parts
    {
      var p := parts[i];
      TakeSnoc(parts, i);
      match p {
        case Text(text) =>
          GatherText(out, buffer, attachments, before, parts[..i], to, p);
          if buffer != "" {
            buffer := buffer + "\n";
          }
          buffer := buffer + text;
        case Attachment(_, _, _) =>
          GatherAttachment(out, buffer, attachments, before, parts[..i], to, p);
          attachments := attachments + [p];
        case Mixed(_) =>
          GatherNested(out, buffer, attachments, before, parts[..i], to, p);
          out := PushPayloads(p, to, out);
      }
    }
    assert parts[..|parts|] == parts;
  }

  lemma MediaStep(out: seq<Payload>, before: seq<Payload>, media: seq<Content>, to: string, p: Content)
    requires out == before + DirectMedia(media, to) && p.Attachment?
    ensures out + Payloads(p, to) == before + DirectMedia(media + [p], to)
  {
    PartStep(media, p, to);
    Assoc(before, DirectMedia(media, to), [MediaPayload(p, to)]);
  }

  method PushMedia(ghost parts: seq<Content>, attachments: seq<Content>, to: string, before: seq<Payload>)
    returns (out: seq<Payload>)
    requires forall a <- attachments :: a.Attachment? && a in parts
    ensures out == before + DirectMedia(attachments, to)
    decreases parts, 0
  {
    out := before;
    for i := 0 to |attachments|
      invariant out == before + DirectMedia(attachments[..i], to)
    {
      MediaStep(out, before, attachments[..i], to, attachments[i]);
      TakeSnoc(attachments, i);
      ghost var k :| 0 <= k < |parts| && parts[k] == attachments[i];
      out := PushPayloads(attachments[i], to, out);
    }
    assert attachments[..|attachments|] == attachments;
  }

  // ----- What the payloads carry ----------------------------------------

  /** Everything before the first slash of the mime type, or all of it, is the given word. */
  predicate Is(mime: string, word: string) {
    mime == word || word + "/" <= mime
  }

  predicate HasKind(mime: string, kind: MediaKind) {
    match kind
    case Image => Is(mime, "image")
    case Audio => Is(mime, "audio")
    case Video => Is(mime, "video")
    case Document => !Is(mime, "image") && !Is(mime, "audio") && !Is(mime, "video")
  }

  lemma {:induction false} HeadIs(mime: string, word: string)
    requires '/' !in word
    ensures Head(mime) == word <==> Is(mime, word)
    decreases |mime|
  {
    if mime != "" && mime[0] != '/' && word != "" {
      HeadIs(mime[1..], word[1..]);
      assert word == [word[0]] + word[1..] && mime == [mime[0]] + mime[1..];
      assert mime[0] == word[0] ==> (Is(mime, word) <==> Is(mime[1..], word[1..])) by {
        assert word + "/" == [word[0]] + (word[1..] + "/");
      }
    } else {
      assert word != "" ==> word[0] in word && (word + "/")[0] == word[0];
    }
  }

  lemma KindOfMime(mime: string, kind: MediaKind)
    ensures AttachmentKind(mime) == kind <==> HasKind(mime, kind)
  {
    HeadIs(mime, "image");
    HeadIs(mime, "audio");
    HeadIs(mime, "video");
  }

  /** The payload sends this attachment: its reference and caption, under the kind of its mime type. */
  predicate Carries(m: Payload, a: Content) {
    && m.Media? && a.Attachment?
    && m.id == a.mediaRef && m.caption == a.caption && HasKind(a.mime, m.kind)
  }

  lemma MediaCarries(a: Content, to: string, m: Payload)
    requires a.Attachment?
    ensures MediaPayload(a, to) == m <==> Carries(m, a) && m.to == to
  {
    if m.Media? {
      KindOfMime(a.mime, m.kind);
    }
  }

  /** How often a media payload is owed: once per attachment leaf that it carries. */
  function Owed(leaves: seq<Content>, m: Payload): nat {
    if leaves == [] then 0 else (if Carries(m, leaves[0]) then 1 else 0) + Owed(leaves[1..], m)
  }

  /** How often a character occurs in the text leaves. */
  function LeafOcc(leaves: seq<Content>, ch: char): nat {
    if leaves == [] then 0
    else (if leaves[0].Text? then multiset(leaves[0].text)[ch] else 0) + LeafOcc(leaves[1..], ch)
  }

  /** How often a character occurs in the text bodies. */
  function BodyOcc(out: seq<Payload>, ch: char): nat {
    if out == [] then 0
    else (if out[0].TextBody? then multiset(out[0].body)[ch] else 0) + BodyOcc(out[1..], ch)
  }

  lemma {:induction false} LeafCountsAppend(a: seq<Content>, b: seq<Content>, m: Payload, ch: char)
    ensures Owed(a + b, m) == Owed(a, m) + Owed(b, m)
    ensures LeafOcc(a + b, ch) == LeafOcc(a, ch) + LeafOcc(b, ch)
    decreases |a|
  {
    if a == [] {
      assert a + b == b;
    } else {
      LeafCountsAppend(a[1..], b, m, ch);
      assert (a + b)[1..] == a[1..] + b;
    }
  }

  lemma {:induction false} BodyOccAppend(a: seq<Payload>, b: seq<Payload>, ch: char)
    ensures BodyOcc(a + b, ch) == BodyOcc(a, ch) + BodyOcc(b, ch)
    decreases |a|
  {
    if a == [] {
      assert a + b == b;
    } else {
      BodyOccAppend(a[1..], b, ch);
      assert (a + b)[1..] == a[1..] + b;
    }
  }

  lemma OneLeaf(c: Content, m: Payload, ch: char)
    requires !c.Mixed?
    ensures Owed([c], m) == if c.Attachment? && MediaPayload(c, m.to) == m then 1 else 0
    ensures LeafOcc([c], ch) == if c.Text? then multiset(c.text)[ch] else 0
  {
    assert [c][1..] == [];
    if c.Attachment? {
      MediaCarries(c, m.to, m);
    }
  }

  lemma OneBody(p: Payload, ch: char)
    ensures BodyOcc([p], ch) == if p.TextBody? then multiset(p.body)[ch] else 0
  {
    assert [p][1..] == [];
  }

  /** Conservation of media: the payloads of a tree carry each attachment (reference, kind,
      caption, peer) exactly as often as it occurs among the leaves. */
  lemma {:induction false} MediaConserved(c: Content, to: string, m: Payload)
    requires m.Media? && m.to == to
    ensures multiset(Payloads(c, to))[m] == Owed(Leaves(c), m)
    decreases c, 1
  {
    if c.Mixed? {
      PartsMediaConserved(c.parts, to, m);
    } else {
      OneLeaf(c, m, ' ');
    }
  }

  lemma {:induction false} PartsMediaConserved(parts: seq<Content>, to: string, m: Payload)
    requires m.Media? && m.to == to
    ensures multiset(NestedPayloads(parts, to))[m] + multiset(DirectMedia(parts, to))[m] == Owed(LeavesOf(parts), m)
    decreases parts, 0
  {
    if parts != [] {
      var init, p := Init(parts), Last(parts);
      PartsMediaConserved(init, to, m);
      OwedSnoc(parts, m);
      if p.Mixed? {
        MediaConserved(p, to, m);
        OccAppend(NestedPayloads(init, to), Payloads(p, to), m);
        assert DirectMedia(parts, to) == DirectMedia(init, to);
      } else {
        assert NestedPayloads(parts, to) == NestedPayloads(init, to);
        OneLeaf(p, m, ' ');
        if p.Attachment? {
          OccAppend(DirectMedia(init, to), [MediaPayload(p, to)], m);
        } else {
          assert DirectMedia(parts, to) == DirectMedia(init, to);
        }
      }
    }
  }

  lemma OccAppend<T>(a: seq<T>, b: seq<T>, x: T)
    ensures multiset(a + b)[x] == multiset(a)[x] + multiset(b)[x]
  {
    assert multiset(a + b) == multiset(a) + multiset(b);
  }

  lemma OwedSnoc(parts: seq<Content>, m: Payload)
    requires parts != []
    ensures Owed(LeavesOf(parts), m) == Owed(LeavesOf(Init(parts)), m) + Owed(Leaves(Last(parts)), m)
  {
    assert parts == Init(parts) + [Last(parts)];
    LeavesSnoc(Init(parts), Last(parts));
    LeafCountsAppend(LeavesOf(Init(parts)), Leaves(Last(parts)), m, ' ');
  }

  lemma LeafOccSnoc(parts: seq<Content>, ch: char)
    requires parts != []
    ensures LeafOcc(LeavesOf(parts), ch) == LeafOcc(LeavesOf(Init(parts)), ch) + LeafOcc(Leaves(Last(parts)), ch)
  {
    assert parts == Init(parts) + [Last(parts)];
    LeavesSnoc(Init(parts), Last(parts));
    LeafCountsAppend(LeavesOf(Init(parts)), Leaves(Last(parts)), TextBody("", ""), ch);
  }

  /** Conservation of text: every character of the text leaves, newlines apart, occurs in the
      text bodies exactly as often as in the leaves. */
  lemma {:induction false} TextConserved(c: Content, to: string, ch: char)
    requires ch != '\n'
    ensures BodyOcc(Payloads(c, to), ch) == LeafOcc(Leaves(c), ch)
    decreases c, 1
  {
    if c.Mixed? {
      var nested, body := NestedPayloads(c.parts, to), MergedBody(c.parts, to);
      PartsTextConserved(c.parts, to, ch);
      MergedOcc(c.parts, to, ch);
      DirectMediaSilent(c.parts, to, ch);
      BodyOccAppend(nested + body, DirectMedia(c.parts, to), ch);
      BodyOccAppend(nested, body, ch);
    } else {
      OneLeaf(c, TextBody(to, ""), ch);
      OneBody(Payloads(c, to)[0], ch);
    }
  }

  lemma {:induction false} PartsTextConserved(parts: seq<Content>, to: string, ch: char)
    requires ch != '\n'
    ensures BodyOcc(NestedPayloads(parts, to), ch) + multiset(Merged(parts))[ch] == LeafOcc(LeavesOf(parts), ch)
    decreases parts, 0
  {
    if parts != [] {
      var init, p := Init(parts), Last(parts);
      PartsTextConserved(init, to, ch);
      LeafOccSnoc(parts, ch);
      if p.Mixed? {
        TextConserved(p, to, ch);
        BodyOccAppend(NestedPayloads(init, to), Payloads(p, to), ch);
        assert Merged(parts) == Merged(init);
      } else {
        assert NestedPayloads(parts, to) == NestedPayloads(init, to);
        OneLeaf(p, TextBody(to, ""), ch);
        MergedSnoc(parts, ch);
      }
    }
  }

  lemma MergedSnoc(parts: seq<Content>, ch: char)
    requires parts != [] && ch != '\n'
    ensures multiset(Merged(parts))[ch]
      == multiset(Merged(Init(parts)))[ch] + (if Last(parts).Text? then multiset(Last(parts).text)[ch] else 0)
  {
    if Last(parts).Text? && Merged(Init(parts)) != "" {
      OccAppend(Merged(Init(parts)) + "\n", Last(parts).text, ch);
      OccAppend(Merged(Init(parts)), "\n", ch);
    }
  }

  lemma MergedOcc(parts: seq<Content>, to: string, ch: char)
    ensures BodyOcc(MergedBody(parts, to), ch) == multiset(Merged(parts))[ch]
  {
    if Merged(parts) != "" {
      OneBody(TextBody(to, Merged(parts)), ch);
    }
  }

  lemma {:induction false} DirectMediaSilent(parts: seq<Content>, to: string, ch: char)
    ensures BodyOcc(DirectMedia(parts, to), ch) == 0
    decreases |parts|
  {
    if parts != [] {
      DirectMediaSilent(Init(parts), to, ch);
      if Last(parts).Attachment? {
        OneBody(MediaPayload(Last(parts), to), ch);
        assert DirectMedia(parts, to) == DirectMedia(Init(parts), to) + [MediaPayload(Last(parts), to)];
        BodyOccAppend(DirectMedia(Init(parts), to), [MediaPayload(Last(parts), to)], ch);
      } else {
        assert DirectMedia(parts, to) == DirectMedia(Init(parts), to);
      }
    }
  }

  /** Every payload goes to the addressed peer. */
  lemma {:induction false} PayloadsAddressed(c: Content, to: string)
    ensures forall p <- Payloads(c, to) :: p.to == to
    decreases c, 1
  {
    if c.Mixed? {
      PartsAddressed(c.parts, to);
    }
  }

  lemma {:induction false} PartsAddressed(parts: seq<Content>, to: string)
    ensures forall p <- NestedPayloads(parts, to) :: p.to == to
    ensures forall p <- DirectMedia(parts, to) :: p.to == to
    decreases parts, 0
  {
    if parts != [] {
      PartsAddressed(Init(parts), to);
      PayloadsAddressed(Last(parts), to);
    }
  }

  // ----- The two providers agree on the references --------------------------------------

  /** The media ids among the payloads, in order. */
  function MediaIds(out: seq<Payload>): seq<string> {
    if out == [] then [] else (if out[0].Media? then [out[0].id] else []) + MediaIds(out[1..])
  }

  lemma {:induction false} MediaIdsAppend(a: seq<Payload>, b: seq<Payload>)
    ensures MediaIds(a + b) == MediaIds(a) + MediaIds(b)
    decreases |a|
  {
    if a == [] {
      assert a + b == b;
    } else {
      MediaIdsAppend(a[1..], b);
      assert (a + b)[1..] == a[1..] + b;
    }
  }

  lemma OneMediaId(p: Payload)
    ensures MediaIds([p]) == if p.Media? then [p.id] else []
  {
    assert [p][1..] == [];
  }

  lemma LeafRefs(c: Content)
    requires !c.Mixed?
    ensures MediaRefs(c) == if c.Attachment? then [c.mediaRef] else []
  {
    assert Leaves(c) == [c] && [c][1..] == [];
    assert Attachments([c]) == if c.Attachment? then [c] else [];
    assert MediaRefs(c) == if c.Attachment? then [c.mediaRef] else [];
  }

  lemma MediaRefsSplit(parts: seq<Content>)
    requires parts != []
    ensures MediaRefsOf(parts) == MediaRefsOf(Init(parts)) + MediaRefs(Last(parts))
  {
    EndsOf(parts);
    MediaRefsSnoc(Init(parts), Last(parts));
  }

  /** WhatsApp's payloads carry exactly the multiset of references that Signal's collector lists. */
  lemma {:induction false} SameReferences(c: Content, to: string, mediaRef: string)
    ensures multiset(MediaIds(Payloads(c, to)))[mediaRef] == multiset(MediaRefs(c))[mediaRef]
    decreases c, 1
  {
    if c.Mixed? {
      var nested, body, media := NestedPayloads(c.parts, to), MergedBody(c.parts, to), DirectMedia(c.parts, to);
      PartsSameReferences(c.parts, to, mediaRef);
      MediaIdsAppend(nested + body, media);
      MediaIdsAppend(nested, body);
      BodyHasNoIds(c.parts, to);
      assert MediaIds(nested) + [] == MediaIds(nested);
      OccAppend(MediaIds(nested), MediaIds(media), mediaRef);
    } else {
      OneMediaId(Payloads(c, to)[0]);
      LeafRefs(c);
    }
  }

  lemma BodyHasNoIds(parts: seq<Content>, to: string)
    ensures MediaIds(MergedBody(parts, to)) == []
  {
    if Merged(parts) != "" {
      OneMediaId(TextBody(to, Merged(parts)));
    }
  }

  lemma {:induction false} PartsSameReferences(parts: seq<Content>, to: string, mediaRef: string)
    ensures multiset(MediaIds(NestedPayloads(parts, to)))[mediaRef] + multiset(MediaIds(DirectMedia(parts, to)))[mediaRef]
         == multiset(MediaRefsOf(parts))[mediaRef]
    decreases parts, 0
  {
    if parts != [] {
      var init, p := Init(parts), Last(parts);
      PartsSameReferences(init, to, mediaRef);
      MediaRefsSplit(parts);
      OccAppend(MediaRefsOf(init), MediaRefs(p), mediaRef);
      if p.Mixed? {
        SameReferences(p, to, mediaRef);
        MediaIdsAppend(NestedPayloads(init, to), Payloads(p, to));
        OccAppend(MediaIds(NestedPayloads(init, to)), MediaIds(Payloads(p, to)), mediaRef);
        assert DirectMedia(parts, to) == DirectMedia(init, to);
      } else {
        assert NestedPayloads(parts, to) == NestedPayloads(init, to);
        LeafRefs(p);
        if p.Attachment? {
          DirectIds(init, to, p, mediaRef);
        } else {
          assert DirectMedia(parts, to) == DirectMedia(init, to);
        }
      }
    }
  }

  lemma DirectIds(init: seq<Content>, to: string, p: Content, mediaRef: string)
    requires p.Attachment?
    ensures multiset(MediaIds(DirectMedia(init, to) + [MediaPayload(p, to)]))[mediaRef]
         == multiset(MediaIds(DirectMedia(init, to)))[mediaRef] + multiset([p.mediaRef])[mediaRef]
  {
    MediaIdsAppend(DirectMedia(init, to), [MediaPayload(p, to)]);
    OneMediaId(MediaPayload(p, to));
    OccAppend(MediaIds(DirectMedia(init, to)), [p.mediaRef], mediaRef);
  }

  // ----- What the payloads of a tree are, in order -----------------------------------------

  /** The parts that satisfy a condition, in order. */
  function Only(parts: seq<Content>, f: Content -> bool): seq<Content> {
    if parts == [] then [] else (if f(parts[0]) then [parts[0]] else []) + Only(parts[1..], f)
  }

  function Flat(lists: seq<seq<Payload>>): seq<Payload> {
    if lists == [] then [] else lists[0] + Flat(lists[1..])
  }

  /** The texts from the first non-empty one on. */
  function FromFirst(lines: seq<string>): seq<string> {
    if lines != [] && lines[0] == "" then FromFirst(lines[1..]) else lines
  }

  function TextsOf(texts: seq<Content>): (r: seq<string>)
    requires forall t <- texts :: t.Text?
  {
    seq(|texts|, i requires 0 <= i < |texts| => texts[i].text)
  }

  function IsText(): Content -> bool {
    (p: Content) => p.Text?
  }

  function IsMixed(): Content -> bool {
    (p: Content) => p.Mixed?
  }

  function IsAttachment(): Content -> bool {
    (p: Content) => p.Attachment?
  }

  lemma {:induction false} OnlySnoc(parts: seq<Content>, f: Content -> bool)
    requires parts != []
    ensures Only(parts, f) == Only(Init(parts), f) + if f(Last(parts)) then [Last(parts)] else []
    decreases |parts|
  {
    if |parts| == 1 {
      assert Init(parts) == [] && parts[1..] == [];
    } else {
      OnlySnoc(parts[1..], f);
      assert Init(parts[1..]) == Init(parts)[1..] && Last(parts[1..]) == Last(parts);
      Assoc(if f(parts[0]) then [parts[0]] else [], Only(Init(parts)[1..], f), if f(Last(parts)) then [Last(parts)] else []);
    }
  }

  lemma {:induction false} OnlyAre(parts: seq<Content>, f: Content -> bool)
    ensures forall p <- Only(parts, f) :: f(p)
  {
    if parts != [] {
      OnlyAre(parts[1..], f);
    }
  }

  lemma {:induction false} FlatSnoc(lists: seq<seq<Payload>>, last: seq<Payload>)
    ensures Flat(lists + [last]) == Flat(lists) + last
    decreases |lists|
  {
    if lists == [] {
      assert [] + [last] == [last] && [last][1..] == [] && last + [] == last;
    } else {
      FlatSnoc(lists[1..], last);
      assert (lists + [last])[1..] == lists[1..] + [last];
      Assoc(lists[0], Flat(lists[1..]), last);
    }
  }

  lemma {:induction false} FromFirstSnoc(lines: seq<string>, t: string)
    ensures FromFirst(lines + [t]) == if FromFirst(lines) == [] && t == "" then [] else FromFirst(lines) + [t]
    ensures FromFirst(lines) != [] ==> FromFirst(lines)[0] != ""
    decreases |lines|
  {
    if lines == [] {
      assert [] + [t] == [t] && [t][1..] == [];
    } else {
      assert (lines + [t])[1..] == lines[1..] + [t];
      if lines[0] == "" {
        FromFirstSnoc(lines[1..], t);
      }
    }
  }

  lemma FirstNotEmptyJoins(lines: seq<string>)
    requires lines != [] && lines[0] != ""
    ensures Join(lines) != ""
  {
  }

  /** The merged body is the texts, in order, one per line; empty texts before the first non-empty one
      give no line. */
  lemma {:induction false} MergedIsJoined(parts: seq<Content>)
    ensures forall p <- Only(parts, IsText()) :: p.Text?
    ensures Merged(parts) == Join(FromFirst(TextsOf(Only(parts, IsText()))))
    decreases |parts|
  {
    OnlyAre(parts, IsText());
    if parts != [] {
      var init, p := Init(parts), Last(parts);
      MergedIsJoined(init);
      OnlySnoc(parts, IsText());
      if p.Text? {
        var lines := TextsOf(Only(init, IsText()));
        assert TextsOf(Only(parts, IsText())) == lines + [p.text];
        FromFirstSnoc(lines, p.text);
        JoinAppend(FromFirst(lines), [p.text]);
        if FromFirst(lines) != [] {
          FirstNotEmptyJoins(FromFirst(lines));
        }
      } else {
        assert Only(parts, IsText()) == Only(init, IsText());
      }
    }
  }

  lemma {:induction false} NestedAreFlat(parts: seq<Content>, to: string)
    ensures var nested := Only(parts, IsMixed());
      NestedPayloads(parts, to) == Flat(seq(|nested|, i requires 0 <= i < |nested| => Payloads(nested[i], to)))
    decreases |parts|
  {
    if parts != [] {
      var before, nested := Only(Init(parts), IsMixed()), Only(parts, IsMixed());
      NestedAreFlat(Init(parts), to);
      OnlySnoc(parts, IsMixed());
      if Last(parts).Mixed? {
        FlatSnoc(seq(|before|, i requires 0 <= i < |before| => Payloads(before[i], to)), Payloads(Last(parts), to));
        assert seq(|nested|, i requires 0 <= i < |nested| => Payloads(nested[i], to))
            == seq(|before|, i requires 0 <= i < |before| => Payloads(before[i], to)) + [Payloads(Last(parts), to)];
      } else {
        assert nested == before;
      }
    }
  }

  /** The payloads carry the attachments, one each and in order, for the peer. */
  ghost predicate CarryAll(out: seq<Payload>, attachments: seq<Content>, to: string) {
    |out| == |attachments| && forall i :: 0 <= i < |out| ==> Carries(out[i], attachments[i]) && out[i].to == to
  }

  lemma {:induction false} DirectMediaCarry(parts: seq<Content>, to: string)
    ensures CarryAll(DirectMedia(parts, to), Only(parts, IsAttachment()), to)
    decreases |parts|
  {
    if parts != [] {
      DirectMediaCarry(Init(parts), to);
      OnlySnoc(parts, IsAttachment());
      if Last(parts).Attachment? {
        MediaCarries(Last(parts), to, MediaPayload(Last(parts), to));
      }
    }
  }

  /** What is sent for a tree, in order. A text is one body, an attachment one media payload with its
      reference, caption and kind. Of a `Mixed` node first come the payloads of its nested trees, then
      its own texts as one body, one line each, then its own attachments; each group in part order. */
  lemma PayloadsInOrder(c: Content, to: string)
    ensures c.Text? ==> Payloads(c, to) == [TextBody(to, c.text)]
    ensures c.Attachment? ==> CarryAll(Payloads(c, to), [c], to)
    ensures c.Mixed? ==> (forall p <- Only(c.parts, IsText()) :: p.Text?)
    ensures c.Mixed? ==> exists media ::
      && CarryAll(media, Only(c.parts, IsAttachment()), to)
      && var nested := Only(c.parts, IsMixed());
         var body := Join(FromFirst(TextsOf(Only(c.parts, IsText()))));
         Payloads(c, to) == Flat(seq(|nested|, i requires 0 <= i < |nested| => Payloads(nested[i], to)))
                            + (if body == "" then [] else [TextBody(to, body)]) + media
  {
    match c
    case Text(_) =>
    case Attachment(_, _, _) => MediaCarries(c, to, MediaPayload(c, to));
    case Mixed(parts) =>
      MergedIsJoined(parts);
      NestedAreFlat(parts, to);
      DirectMediaCarry(parts, to);
      assert CarryAll(DirectMedia(parts, to), Only(parts, IsAttachment()), to);
  }
}
