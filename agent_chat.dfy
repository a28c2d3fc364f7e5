/** The chat hook of lib/hooks/useAgentChat.ts: the message list, the
    server-sent-event reader of `sendMessage` that splits the response
    stream into `\n\n`-separated frames and applies `token` and `meta`
    events, and the `localStorage` identifiers. The network, the clock and
    the random identifiers are parameters; `JSON.parse` is a parameter
    that yields the event a frame's payload denotes, or `None` where the
    code throws. */
module AgentChat {
  import opened Wrappers
  import opened Strings

  datatype Role = UserRole | AgentRole

  /** `AgentMessage`. */
  datatype AgentMessage = AgentMessage(id: string, role: Role, content: string)

  const Greeting: string :=
    "Hi! I'm your CodeBlitz loan advisor. Tell me how much you'd like to borrow and your preferred tenure."
  const SorryText: string := "Sorry, I ran into a problem. Please try again."
  const UploadFailedText: string := "Upload failed. Please try again."
  const SalarySlipUploadedText: string := "I have uploaded my salary slip."
  const SessionKey: string := "codeblitz-session-id"
  const DeviceKey: string := "codeblitz-device-id"

  // ------------------------------------------------------------ JavaScript values

  /** A JavaScript value as `JSON.parse` produces it, plus `undefined`. */
  datatype JsValue =
    | JsUndefined | JsNull | JsBool(b: bool) | JsNum(n: real) | JsStr(s: string)
    | JsArray(items: seq<JsValue>) | JsObject(fields: map<string, JsValue>)

  /** JavaScript truthiness (parsed JSON holds no NaN). */
  predicate Truthy(v: JsValue) {
    match v
    case JsUndefined => false
    case JsNull => false
    case JsBool(b) => b
    case JsNum(n) => n != 0.0
    case JsStr(s) => s != ""
    case JsArray(_) => true
    case JsObject(_) => true
  }

  /** `v[key]` on a value that is not null or undefined: a missing property,
      and any property of a non-object, reads as `undefined`. */
  function Property(v: JsValue, key: string): JsValue {
    if v.JsObject? && key in v.fields then v.fields[key] else JsUndefined
  }

  // ------------------------------------------------------------ the message list

  /** No message of `ms` carries the identifier `id`. */
  predicate FreshId(ms: seq<AgentMessage>, id: string) {
    forall i :: 0 <= i < |ms| ==> ms[i].id != id
  }

  /** `updateAgentMessage(id, f)`: every message with identifier `id` gets
      the content `f` makes of its own; all else is kept. */
  function UpdateAgentMessage(ms: seq<AgentMessage>, id: string, f: string -> string): (r: seq<AgentMessage>)
    ensures |r| == |ms|
    ensures forall i :: 0 <= i < |ms| ==> r[i].id == ms[i].id && r[i].role == ms[i].role
    ensures forall i :: 0 <= i < |ms| && ms[i].id != id ==> r[i] == ms[i]
    ensures forall i :: 0 <= i < |ms| && ms[i].id == id ==> r[i].content == f(ms[i].content)
    decreases |ms|
  {
    if ms == [] then []
    else [if ms[0].id == id then ms[0].(content := f(ms[0].content)) else ms[0]]
         + UpdateAgentMessage(ms[1..], id, f)
  }

  /** When only the last message carries `id`, the update rewrites the last
      message and keeps the ones before it. */
  lemma {:induction false} UpdateFreshLast(prefix: seq<AgentMessage>, m: AgentMessage, f: string -> string)
    requires FreshId(prefix, m.id)
    ensures UpdateAgentMessage(prefix + [m], m.id, f) == prefix + [m.(content := f(m.content))]
  {
    var r := UpdateAgentMessage(prefix + [m], m.id, f);
    var e := prefix + [m.(content := f(m.content))];
    assert |r| == |e|;
    forall i | 0 <= i < |r| ensures r[i] == e[i] {
      if i < |prefix| {
        assert (prefix + [m])[i] == prefix[i];
      } else {
        assert (prefix + [m])[i] == m;
      }
    }
  }

  /** The text a token event adds: a space first when the content so far is
      non-empty and does not already end with one. */
  function AppendToken(prev: string, token: string): (r: string)
    ensures |prev| + |token| <= |r| && r[..|prev|] == prev && r[|r| - |token|..] == token
    ensures |r| == |prev| + |token| + 1 <==> prev != "" && !EndsWith(prev, " ")
    ensures |r| == |prev| + |token| <==> prev == "" || EndsWith(prev, " ")
    ensures |r| == |prev| + |token| + 1 ==> r[|prev|] == ' '
  {
    var separator := if prev != "" && !EndsWith(prev, " ") then " " else "";
    prev + separator + token
  }

  /** Appending to an empty message or to one that ends with a space adds
      the token as it is. */
  lemma {:induction false} TokenJoinsWithOneSpace(prev: string, token: string)
    ensures prev == "" ==> AppendToken(prev, token) == token
    ensures EndsWith(prev, " ") ==> AppendToken(prev, token) == prev + token
    ensures prev != "" && !EndsWith(prev, " ") ==> AppendToken(prev, token) == prev + " " + token
  {
    assert "" + "" + token == token;
  }

  // ------------------------------------------------------------ framing

  /** A `\n\n` separator starts at `k`. */
  predicate SepAt(s: string, k: int) {
    0 <= k && k + 2 <= |s| && s[k] == '\n' && s[k + 1] == '\n'
  }

  /** `s` holds no separator. */
  predicate NoSep(s: string) {
    forall k :: 0 <= k < |s| ==> !SepAt(s, k)
  }

  /** Where the first separator at or after `i` starts, `|s|` if none does. */
  function FirstSep(s: string, i: nat): (p: nat)
    requires i <= |s|
    ensures i <= p <= |s|
    ensures p < |s| ==> SepAt(s, p)
    ensures forall k :: i <= k < p ==> !SepAt(s, k)
    decreases |s| - i
  {
    if i + 2 > |s| then |s| else if SepAt(s, i) then i else FirstSep(s, i + 1)
  }

  /** `s.split('\n\n')`: cut at the leftmost separator, go on after it. */
  function Split(s: string): (parts: seq<string>)
    ensures |parts| >= 1
    decreases |s|
  {
    var p := FirstSep(s, 0);
    if p == |s| then [s] else [s[..p]] + Split(s[p + 2..])
  }

  /** `parts.join('\n\n')`. */
  function Join(parts: seq<string>): string
    requires |parts| >= 1
    decreases |parts|
  {
    if |parts| == 1 then parts[0] else parts[0] + "\n\n" + Join(parts[1..])
  }

  /** Frames as `split` returns them: none holds a separator, and none but
      the last ends with a line feed (that line feed would have started the
      separator). */
  predicate SplitShaped(parts: seq<string>) {
    |parts| >= 1
    && (forall i :: 0 <= i < |parts| ==> NoSep(parts[i]))
    && (forall i :: 0 <= i < |parts| - 1 ==> !EndsWith(parts[i], "\n"))
  }

  lemma {:induction false} PrefixHasNoSep(s: string, p: nat)
    requires p <= |s| && forall k :: 0 <= k < p ==> !SepAt(s, k)
    ensures NoSep(s[..p])
  {
    forall k | 0 <= k < p ensures !SepAt(s[..p], k) {
      assert !SepAt(s, k);
      if k + 2 <= p {
        assert s[..p][k] == s[k] && s[..p][k + 1] == s[k + 1];
      }
    }
  }

  /** One step of `Split`. */
  lemma {:induction false} SplitUnfold(s: string)
    ensures FirstSep(s, 0) == |s| ==> Split(s) == [s]
    ensures FirstSep(s, 0) < |s| ==> Split(s) == [s[..FirstSep(s, 0)]] + Split(s[FirstSep(s, 0) + 2..])
  {
  }

  /** Splitting and joining again gives the string back. */
  lemma {:induction false} JoinSplit(s: string)
    ensures Join(Split(s)) == s
    decreases |s|
  {
    var p := FirstSep(s, 0);
    SplitUnfold(s);
    if p < |s| {
      var rest := s[p + 2..];
      JoinSplit(rest);
      var fs := Split(rest);
      var parts := [s[..p]] + fs;
      assert parts[1..] == fs;
      assert Join(parts) == s[..p] + "\n\n" + Join(fs);
      assert s[p..p + 2] == "\n\n";
      assert s == s[..p] + s[p..p + 2] + rest;
    }
  }

  /** The frames `split` returns are split-shaped. */
  lemma {:induction false} SplitIsShaped(s: string)
    ensures SplitShaped(Split(s))
    decreases |s|
  {
    var p := FirstSep(s, 0);
    PrefixHasNoSep(s, p);
    SplitUnfold(s);
    if p < |s| {
      var rest := s[p + 2..];
      SplitIsShaped(rest);
      var fs := Split(rest);
      var parts := [s[..p]] + fs;
      if p > 0 {
        assert !SepAt(s, p - 1);
        assert s[..p][p - 1..] == [s[p - 1]];
      }
      forall i | 0 <= i < |parts| ensures NoSep(parts[i]) {
        if i > 0 {
          assert parts[i] == fs[i - 1];
        }
      }
      forall i | 0 <= i < |parts| - 1 ensures !EndsWith(parts[i], "\n") {
        if i > 0 {
          assert parts[i] == fs[i - 1];
        }
      }
    } else {
      assert s[..p] == s;
    }
  }

  lemma {:induction false} FirstSepOfJoin(a: string, b: string)
    requires NoSep(a) && !EndsWith(a, "\n")
    ensures FirstSep(a + "\n\n" + b, 0) == |a|
  {
    var s := a + "\n\n" + b;
    assert SepAt(s, |a|);
    forall k | 0 <= k < |a| ensures !SepAt(s, k) {
      if k + 2 <= |a| {
        assert s[k] == a[k] && s[k + 1] == a[k + 1];
        assert !SepAt(a, k);
      } else {
        assert a[|a| - 1..] == [a[|a| - 1]];
        assert s[k] == a[|a| - 1];
      }
    }
  }

  /** A frame followed by a separator is split off as the first frame. */
  lemma {:induction false} SplitOfSeparated(a: string, b: string)
    requires NoSep(a) && !EndsWith(a, "\n")
    ensures Split(a + "\n\n" + b) == [a] + Split(b)
  {
    var s := a + "\n\n" + b;
    FirstSepOfJoin(a, b);
    SplitUnfold(s);
    assert s[..|a|] == a;
    assert s[|a| + 2..] == b;
  }

  lemma {:induction false} ShapedTail(parts: seq<string>)
    requires SplitShaped(parts) && |parts| > 1
    ensures SplitShaped(parts[1..]) && NoSep(parts[0]) && !EndsWith(parts[0], "\n")
  {
    var rest := parts[1..];
    forall i | 0 <= i < |rest| ensures NoSep(rest[i]) {
      assert rest[i] == parts[i + 1];
    }
    forall i | 0 <= i < |rest| - 1 ensures !EndsWith(rest[i], "\n") {
      assert rest[i] == parts[i + 1];
    }
  }

  /** A stream whose last frame has no separator after it leaves that
      frame unprocessed. */
  lemma {:induction false} UnterminatedFrameIsDropped(parts: seq<string>)
    requires SplitShaped(parts)
    ensures CompleteFrames(Join(parts)) == AllButLast(parts)
  {
    SplitJoin(parts);
  }

  /** Splitting a join of split-shaped frames gives the frames back. */
  lemma {:induction false} SplitJoin(parts: seq<string>)
    requires SplitShaped(parts)
    ensures Split(Join(parts)) == parts
    decreases |parts|
  {
    if |parts| == 1 {
      var s := parts[0];
      assert NoSep(s);
      SplitUnfold(s);
    } else {
      var a := parts[0];
      var rest := parts[1..];
      ShapedTail(parts);
      SplitJoin(rest);
      var j := Join(rest);
      assert Join(parts) == a + "\n\n" + j;
      SplitOfSeparated(a, j);
      assert parts == [a] + rest;
    }
  }

  lemma {:induction false} FirstSepExtends(s: string, c: string, i: nat)
    requires i <= |s| && FirstSep(s, i) < |s|
    ensures FirstSep(s + c, i) == FirstSep(s, i)
    decreases |s| - i
  {
    if SepAt(s, i) {
      assert SepAt(s + c, i);
    } else {
      assert (s + c)[i] == s[i] && (s + c)[i + 1] == s[i + 1];
      FirstSepExtends(s, c, i + 1);
    }
  }

  function Last<T>(xs: seq<T>): T
    requires |xs| >= 1
  {
    xs[|xs| - 1]
  }

  function AllButLast<T>(xs: seq<T>): seq<T>
    requires |xs| >= 1
  {
    xs[..|xs| - 1]
  }

  lemma {:induction false} TakeOneMore<T>(xs: seq<T>, j: nat)
    requires j < |xs|
    ensures xs[..j + 1] == xs[..j] + [xs[j]]
  {
  }

  lemma {:induction false} SnocLast<T>(xs: seq<T>)
    requires |xs| >= 1
    ensures xs == AllButLast(xs) + [Last(xs)]
  {
  }

  lemma {:induction false} AppendAssoc<T>(a: seq<T>, b: seq<T>, c: seq<T>)
    ensures a + (b + c) == a + b + c
  {
  }

  lemma {:induction false} AllButLastAppend<T>(xs: seq<T>, ys: seq<T>)
    requires |ys| >= 1
    ensures AllButLast(xs + ys) == xs + AllButLast(ys) && Last(xs + ys) == Last(ys)
  {
    assert (xs + ys)[..|xs + ys| - 1] == xs + ys[..|ys| - 1];
  }

  /** Splitting is stable under appending: the complete frames of `s` stay
      complete frames of `s + c`, and only its unterminated tail is split
      anew together with `c`. */
  lemma {:induction false} SplitAppend(s: string, c: string)
    ensures Split(s + c) == AllButLast(Split(s)) + Split(Last(Split(s)) + c)
    decreases |s|
  {
    var p := FirstSep(s, 0);
    SplitUnfold(s);
    if p == |s| {
      assert AllButLast(Split(s)) == [];
    } else {
      FirstSepExtends(s, c, 0);
      SplitUnfold(s + c);
      var rest := s[p + 2..];
      SplitAppend(rest, c);
      assert (s + c)[..p] == s[..p];
      assert (s + c)[p + 2..] == rest + c;
      var fs := Split(rest);
      AllButLastAppend([s[..p]], fs);
    }
  }

  /** The text of the chunks read so far. */
  function Concat(chunks: seq<string>): string
    decreases |chunks|
  {
    if chunks == [] then "" else Concat(chunks[..|chunks| - 1]) + chunks[|chunks| - 1]
  }

  lemma {:induction false} ConcatAppend(xs: seq<string>, ys: seq<string>)
    ensures Concat(xs + ys) == Concat(xs) + Concat(ys)
    decreases |ys|
  {
    if ys == [] {
      assert xs + ys == xs;
    } else {
      var init := ys[..|ys| - 1];
      assert (xs + ys)[..|xs + ys| - 1] == xs + init;
      ConcatAppend(xs, init);
    }
  }

  /** The stream read so far, the chunk being read and the chunks still to
      come make up the whole stream. */
  lemma {:induction false} StreamAt(chunks: seq<string>, i: nat)
    requires i < |chunks|
    ensures Concat(chunks[..i + 1]) == Concat(chunks[..i]) + chunks[i]
    ensures Concat(chunks) == Concat(chunks[..i]) + chunks[i] + Concat(chunks[i + 1..])
  {
    assert chunks[..i + 1][..i] == chunks[..i];
    assert chunks == chunks[..i + 1] + chunks[i + 1..];
    ConcatAppend(chunks[..i + 1], chunks[i + 1..]);
  }

  /** The complete frames of a stream: all but the unterminated tail. */
  function CompleteFrames(stream: string): seq<string> {
    AllButLast(Split(stream))
  }

  /** Reading one more chunk: the complete frames of the whole stream are
      those found so far, then the complete frames of the buffer with the
      chunk added, then those of its new tail with the rest of the stream. */
  lemma {:induction false} FramesOfWhole(before: string, chunk: string, tail: string,
                                        done: seq<string>, buffer: string)
    requires Split(before) == done + [buffer]
    ensures var parts := Split(buffer + chunk);
      CompleteFrames(before + chunk + tail)
        == done + AllButLast(parts) + CompleteFrames(Last(parts) + tail)
  {
    var parts := Split(buffer + chunk);
    var whole := before + chunk + tail;
    assert whole == before + (chunk + tail);
    SplitAppend(before, chunk + tail);
    AllButLastAppend(done, [buffer]);
    assert buffer + (chunk + tail) == buffer + chunk + tail;
    SplitAppend(buffer + chunk, tail);
    var later := Split(Last(parts) + tail);
    assert Split(whole) == (done + AllButLast(parts)) + later;
    AllButLastAppend(done + AllButLast(parts), later);
  }

  /** Reading one more chunk keeps the complete frames found so far and
      splits the buffer with the chunk added. */
  lemma {:induction false} ReadOneChunk(before: string, chunk: string, done: seq<string>, buffer: string)
    requires Split(before) == done + [buffer]
    ensures var parts := Split(buffer + chunk);
      Split(before + chunk) == done + AllButLast(parts) + [Last(parts)]
  {
    var parts := Split(buffer + chunk);
    SplitAppend(before, chunk);
    AllButLastAppend(done, [buffer]);
    assert Split(before + chunk) == done + parts;
    SnocLast(parts);
    AppendAssoc(done, AllButLast(parts), [Last(parts)]);
  }

  /** A body without a separator, such as a single JSON document, holds no
      complete frame. */
  lemma {:induction false} NoSeparatorNoFrames(stream: string)
    requires NoSep(stream)
    ensures CompleteFrames(stream) == []
  {
    SplitUnfold(stream);
  }


  // ------------------------------------------------------------ events

  /** What a frame's payload denotes once parsed: a `token` event with the
      text `${parsed.value}` renders, a `meta` event with its value, or
      another type. */
  datatype ChatEvent = TokenEvent(text: string) | MetaEvent(meta: JsValue) | OtherEvent

  /** What the loop does with one frame. */
  datatype FrameOutcome = Skip | Throw | Apply(event: ChatEvent)

  /** The payload of a `data:` line: the line without `data:` and the
      white space after it. */
  function DataOf(line: string): string
    requires StartsWith(line, "data:")
  {
    TrimStart(line[5..])
  }

  /** The payload the loop reads from a frame: `None` when it skips the
      frame, because its trimmed text is not a `data:` line or because the
      payload is `[DONE]`. */
  function Payload(part: string): Option<string> {
    var line := Strip(part);
    if !StartsWith(line, "data:") then None
    else
      var data := DataOf(line);
      if data == "[DONE]" then None else Some(data)
  }

  /** The body of the `for (const part of parts)` loop up to its effects:
      skip the frame, throw on a payload `parse` refuses, or apply its
      event. */
  function Classify(part: string, parse: string -> Option<ChatEvent>): FrameOutcome {
    match Payload(part)
    case None => Skip
    case Some(data) =>
      match parse(data)
      case None => Throw
      case Some(e) => Apply(e)
  }

  lemma {:induction false} TrimStartSkipsPadding(pad: string, s: string)
    requires forall i :: 0 <= i < |pad| ==> IsSpace(pad[i])
    ensures TrimStart(pad + s) == TrimStart(s)
    decreases |pad|
  {
    if pad == [] {
      assert pad + s == s;
    } else {
      assert (pad + s)[0] == pad[0];
      assert (pad + s)[1..] == pad[1..] + s;
      TrimStartSkipsPadding(pad[1..], s);
    }
  }

  /** A frame written as `data:`, some white space and a payload with no
      white space at its ends gives that payload back, unless the payload is
      `[DONE]`, which is skipped. */
  lemma {:induction false} DataLineRoundTrip(pad: string, x: string)
    requires forall i :: 0 <= i < |pad| ==> IsSpace(pad[i])
    requires x != [] && !IsSpace(x[0]) && !IsSpace(x[|x| - 1])
    ensures Payload("data:" + pad + x) == if x == "[DONE]" then None else Some(x)
  {
    var line := "data:" + pad + x;
    assert line[0] == 'd';
    assert TrimStart(line) == line;
    assert line[|line| - 1] == x[|x| - 1];
    assert TrimEnd(line) == line;
    assert Strip(line) == line;
    assert line[..5] == "data:";
    assert line[5..] == pad + x;
    TrimStartSkipsPadding(pad, x);
    assert TrimStart(x) == x;
  }

  /** White space before a frame changes nothing. */
  lemma {:induction false} PayloadIgnoresPadding(pad: string, part: string)
    requires forall i :: 0 <= i < |pad| ==> IsSpace(pad[i])
    ensures Payload(pad + part) == Payload(part)
  {
    TrimStartSkipsPadding(pad, part);
  }

  /** What the hook shows of one streamed reply: the agent message's text,
      the upload flag and the sanction letter. */
  datatype ChatView = ChatView(content: string, uploadRequired: bool, sanctionLetter: JsValue)

  /** `handleMeta(meta)`: a falsy value changes nothing; a truthy
      `requires_upload` raises the upload flag; a truthy `sanction_letter`
      is stored. */
  function ApplyMeta(v: ChatView, meta: JsValue): (r: ChatView)
    ensures r.content == v.content
    ensures r.uploadRequired <==> v.uploadRequired || (Truthy(meta) && Truthy(Property(meta, "requires_upload")))
    ensures r.sanctionLetter == (if Truthy(meta) && Truthy(Property(meta, "sanction_letter"))
                                 then Property(meta, "sanction_letter") else v.sanctionLetter)
  {
    if !Truthy(meta) then v
    else
      var u := if Truthy(Property(meta, "requires_upload")) then v.(uploadRequired := true) else v;
      if Truthy(Property(meta, "sanction_letter")) then u.(sanctionLetter := Property(meta, "sanction_letter")) else u
  }

  /** The view after the applied effect of one event. */
  function ApplyEvent(v: ChatView, e: ChatEvent): ChatView {
    match e
    case TokenEvent(t) => v.(content := AppendToken(v.content, t))
    case MetaEvent(m) => ApplyMeta(v, m)
    case OtherEvent => v
  }

  /** One more frame on top of what the earlier frames gave: nothing once
      a frame has thrown, otherwise the frame's event, if any. */
  function Step(r: (ChatView, bool), part: string, parse: string -> Option<ChatEvent>): (ChatView, bool) {
    if r.1 then r
    else match Classify(part, parse)
         case Skip => r
         case Throw => (r.0, true)
         case Apply(e) => (ApplyEvent(r.0, e), false)
  }

  /** The frames `parts` taken in order after the result `r`. */
  function Resume(r: (ChatView, bool), parts: seq<string>, parse: string -> Option<ChatEvent>): (ChatView, bool)
    decreases |parts|
  {
    if parts == [] then r else Step(Resume(r, AllButLast(parts), parse), Last(parts), parse)
  }

  /** The view after the frames `parts`, and whether a frame threw; a throw
      ends the loop with the view it had reached. */
  function ProcessFrames(v: ChatView, parts: seq<string>, parse: string -> Option<ChatEvent>): (ChatView, bool) {
    Resume((v, false), parts, parse)
  }

  lemma {:induction false} ResumeAppend(r: (ChatView, bool), xs: seq<string>, ys: seq<string>,
                                       parse: string -> Option<ChatEvent>)
    ensures Resume(r, xs + ys, parse) == Resume(Resume(r, xs, parse), ys, parse)
    decreases |ys|
  {
    if ys == [] {
      assert xs + ys == xs;
    } else {
      AllButLastAppend(xs, ys);
      ResumeAppend(r, xs, AllButLast(ys), parse);
    }
  }

  /** After a throw no frame has an effect. */
  lemma {:induction false} ResumeAfterThrow(r: (ChatView, bool), ys: seq<string>, parse: string -> Option<ChatEvent>)
    requires r.1
    ensures Resume(r, ys, parse) == r
    decreases |ys|
  {
    if ys != [] {
      ResumeAfterThrow(r, AllButLast(ys), parse);
    }
  }

  /** Processing frames in two batches is processing them at once, the
      second batch being skipped after a throw. */
  lemma {:induction false} ProcessFramesAppend(v: ChatView, xs: seq<string>, ys: seq<string>,
                                              parse: string -> Option<ChatEvent>)
    ensures var (w, thrown) := ProcessFrames(v, xs, parse);
      ProcessFrames(v, xs + ys, parse) == if thrown then (w, true) else ProcessFrames(w, ys, parse)
  {
    var r := ProcessFrames(v, xs, parse);
    ResumeAppend((v, false), xs, ys, parse);
    if r.1 {
      ResumeAfterThrow(r, ys, parse);
    }
  }

  lemma {:induction false} ProcessFramesSnoc(v: ChatView, xs: seq<string>, part: string,
                                            parse: string -> Option<ChatEvent>)
    ensures ProcessFrames(v, xs + [part], parse) == Step(ProcessFrames(v, xs, parse), part, parse)
  {
    AllButLastAppend(xs, [part]);
  }

  /** The loop over the frames of one read takes one more frame. */
  lemma {:induction false} FramesOneMore(v: ChatView, frames: seq<string>, j: nat, parse: string -> Option<ChatEvent>)
    requires j < |frames|
    ensures ProcessFrames(v, frames[..j + 1], parse) == Step(ProcessFrames(v, frames[..j], parse), frames[j], parse)
  {
    TakeOneMore(frames, j);
    ProcessFramesSnoc(v, frames[..j], frames[j], parse);
  }

  /** The loop over the frames of one read stops after all of them or after
      the first that throws; either way it has the result of all of them. */
  lemma {:induction false} FramesStopped(v: ChatView, frames: seq<string>, j: nat, parse: string -> Option<ChatEvent>)
    requires j <= |frames|
    requires j == |frames| || ProcessFrames(v, frames[..j], parse).1
    ensures ProcessFrames(v, frames, parse) == ProcessFrames(v, frames[..j], parse)
  {
    if j == |frames| {
      assert frames[..j] == frames;
    } else {
      assert frames == frames[..j] + frames[j..];
      ProcessFramesAppend(v, frames[..j], frames[j..], parse);
    }
  }

  lemma {:induction false} ResumeKeepsUploadFlag(r: (ChatView, bool), parts: seq<string>,
                                                parse: string -> Option<ChatEvent>)
    requires r.0.uploadRequired
    ensures Resume(r, parts, parse).0.uploadRequired
    decreases |parts|
  {
    if parts != [] {
      ResumeKeepsUploadFlag(r, AllButLast(parts), parse);
      StepKeepsUploadFlag(Resume(r, AllButLast(parts), parse), Last(parts), parse);
    }
  }

  lemma {:induction false} StepKeepsUploadFlag(r: (ChatView, bool), part: string, parse: string -> Option<ChatEvent>)
    requires r.0.uploadRequired
    ensures Step(r, part, parse).0.uploadRequired
  {
  }

  /** Once raised, the upload flag stays raised for the rest of a reply:
      no event clears it. */
  lemma {:induction false} UploadFlagOnlyRises(v: ChatView, parts: seq<string>, parse: string -> Option<ChatEvent>)
    requires v.uploadRequired
    ensures ProcessFrames(v, parts, parse).0.uploadRequired
  {
    ResumeKeepsUploadFlag((v, false), parts, parse);
  }

  /** The reply's final text: the streamed text, or the apology after a
      throw. */
  function ReplyText(r: (ChatView, bool)): string {
    if r.1 then SorryText else r.0.content
  }

  /** `getOrCreate(key)` on the storage `items`: no window gives "" and no
      change; a stored non-empty value is returned; otherwise `newValue` is
      stored and returned. */
  function GetOrCreateSpec(items: map<string, string>, windowDefined: bool, key: string, newValue: string)
    : (r: (string, map<string, string>))
    ensures !windowDefined ==> r == ("", items)
    ensures windowDefined && key in items && items[key] != "" ==> r == (items[key], items)
    ensures windowDefined && (key !in items || items[key] == "") ==> r == (newValue, items[key := newValue])
  {
    if !windowDefined then ("", items)
    else if key in items && items[key] != "" then (items[key], items)
    else (newValue, items[key := newValue])
  }

  /** Asking twice gives the first answer again, whatever fresh value the
      second call would have used, as long as the first answer is not
      empty; the stored value is the one returned. */
  lemma {:induction false} GetOrCreateIsStable(items: map<string, string>, key: string, newValue: string, newValue2: string)
    requires newValue != ""
    ensures var (v, items1) := GetOrCreateSpec(items, true, key, newValue);
      key in items1 && items1[key] == v
      && GetOrCreateSpec(items1, true, key, newValue2) == (v, items1)
  {
  }

  /** The text sent after an upload has no white space to trim. */
  lemma {:induction false} UploadedTextIsTrimmed()
    ensures Strip(SalarySlipUploadedText) == SalarySlipUploadedText != ""
  {
    assert !IsSpace(SalarySlipUploadedText[0]);
    assert !IsSpace(SalarySlipUploadedText[|SalarySlipUploadedText| - 1]);
  }

  /** `localStorage`. */
  class LocalStorage {
    var items: map<string, string>

    constructor(items: map<string, string>)
      ensures this.items == items
    {
      this.items := items;
    }

    /** `getOrCreate(key)`. */
    method GetOrCreate(windowDefined: bool, key: string, newValue: string) returns (v: string)
      modifies this
      ensures (v, items) == GetOrCreateSpec(old(items), windowDefined, key, newValue)
    {
      if !windowDefined {
        return "";
      }
      if key in items && items[key] != "" {
        return items[key];
      }
      v := newValue;
      items := items[key := newValue];
    }
  }

  /** The identifiers `sendMessage` uses: fresh values of `createId` and
      `getOrCreate`, and whether a `window` exists. */
  datatype Ids = Ids(windowDefined: bool, freshSession: string, freshDevice: string,
                     userId: string, agentId: string)

  /** The state of `useAgentChat`. */
  class ChatSession {
    var messages: seq<AgentMessage>
    var isStreaming: bool
    var uploadRequired: bool
    var sanctionLetter: JsValue
    var sessionId: string
    var deviceId: string
    const storage: LocalStorage

    /** The first render: the greeting from the agent, nothing streaming,
        no upload asked for, no letter, identifiers not yet read. */
    constructor(storage: LocalStorage, greetingId: string)
      ensures messages == [AgentMessage(greetingId, AgentRole, Greeting)]
      ensures !isStreaming && !uploadRequired && sanctionLetter == JsNull
      ensures sessionId == "" && deviceId == "" && this.storage == storage
    {
      messages := [AgentMessage(greetingId, AgentRole, Greeting)];
      isStreaming := false;
      uploadRequired := false;
      sanctionLetter := JsNull;
      sessionId := "";
      deviceId := "";
      this.storage := storage;
    }

    /** The view a reply starts from. */
    function View(content: string): ChatView
      reads this
    {
      ChatView(content, uploadRequired, sanctionLetter)
    }

    /** The identifiers are read on mount, and again by `sendMessage`
        while they are empty. */
    method LoadIds(windowDefined: bool, freshSession: string, freshDevice: string)
      modifies this, storage
      ensures messages == old(messages) && isStreaming == old(isStreaming)
      ensures uploadRequired == old(uploadRequired) && sanctionLetter == old(sanctionLetter)
      ensures old(sessionId) != "" ==> sessionId == old(sessionId)
      ensures old(deviceId) != "" ==> deviceId == old(deviceId)
      ensures old(sessionId) == "" && old(deviceId) == "" ==>
        var (s, items1) := GetOrCreateSpec(old(storage.items), windowDefined, SessionKey, freshSession);
        var (d, items2) := GetOrCreateSpec(items1, windowDefined, DeviceKey, freshDevice);
        sessionId == s && deviceId == d && storage.items == items2
    {
      if sessionId == "" {
        sessionId := storage.GetOrCreate(windowDefined, SessionKey, freshSession);
      }
      if deviceId == "" {
        deviceId := storage.GetOrCreate(windowDefined, DeviceKey, freshDevice);
      }
    }

    /** `handleMeta(meta)`. */
    method HandleMeta(meta: JsValue)
      modifies this
      ensures messages == old(messages) && isStreaming == old(isStreaming)
      ensures sessionId == old(sessionId) && deviceId == old(deviceId)
      ensures View("") == ApplyMeta(old(View("")), meta)
    {
      if !Truthy(meta) {
        return;
      }
      if Truthy(Property(meta, "requires_upload")) {
        uploadRequired := true;
      }
      if Truthy(Property(meta, "sanction_letter")) {
        sanctionLetter := Property(meta, "sanction_letter");
      }
    }

    /** The body of the `for (const part of parts)` loop for one frame: a
        token event extends the agent message, a meta event goes to
        `handleMeta`. When the agent message is the only one with its
        identifier, it shows the text of the view. */
    method ApplyFrame(part: string, agentId: string, parse: string -> Option<ChatEvent>,
                      ghost base: seq<AgentMessage>, ghost view: ChatView)
      returns (thrown: bool, ghost next: ChatView)
      requires uploadRequired == view.uploadRequired && sanctionLetter == view.sanctionLetter
      requires |messages| == |base| + 1
      requires FreshId(base, agentId) ==> messages == base + [AgentMessage(agentId, AgentRole, view.content)]
      modifies this
      ensures (next, thrown) == Step((view, false), part, parse)
      ensures uploadRequired == next.uploadRequired && sanctionLetter == next.sanctionLetter
      ensures |messages| == |base| + 1
      ensures FreshId(base, agentId) ==> messages == base + [AgentMessage(agentId, AgentRole, next.content)]
      ensures isStreaming == old(isStreaming)
    {
      thrown := false;
      next := view;
      match Classify(part, parse) {
        case Skip =>
        case Throw =>
          thrown := true;
        case Apply(e) =>
          next := ApplyEvent(view, e);
          if e.TokenEvent? {
            var t := e.text;
            var f := prev => AppendToken(prev, t);
            messages := UpdateAgentMessage(messages, agentId, f);
            if FreshId(base, agentId) {
              UpdateFreshLast(base, AgentMessage(agentId, AgentRole, view.content), f);
            }
          } else if e.MetaEvent? {
            HandleMeta(e.meta);
          }
      }
    }

    /** The `for (const part of parts)` loop over the complete frames of
        one read; the first frame that throws ends it. */
    method ApplyFrames(frames: seq<string>, agentId: string, parse: string -> Option<ChatEvent>,
                       ghost base: seq<AgentMessage>, ghost view0: ChatView)
      returns (thrown: bool, ghost view: ChatView)
      requires uploadRequired == view0.uploadRequired && sanctionLetter == view0.sanctionLetter
      requires |messages| == |base| + 1
      requires FreshId(base, agentId) ==> messages == base + [AgentMessage(agentId, AgentRole, view0.content)]
      modifies this
      ensures (view, thrown) == ProcessFrames(view0, frames, parse)
      ensures uploadRequired == view.uploadRequired && sanctionLetter == view.sanctionLetter
      ensures |messages| == |base| + 1
      ensures FreshId(base, agentId) ==> messages == base + [AgentMessage(agentId, AgentRole, view.content)]
      ensures isStreaming == old(isStreaming)
    {
      thrown := false;
      view := view0;
      var j := 0;
      while j < |frames| && !thrown
        invariant 0 <= j <= |frames|
        invariant ProcessFrames(view0, frames[..j], parse) == (view, thrown)
        invariant uploadRequired == view.uploadRequired && sanctionLetter == view.sanctionLetter
        invariant |messages| == |base| + 1
        invariant FreshId(base, agentId) ==> messages == base + [AgentMessage(agentId, AgentRole, view.content)]
        invariant isStreaming == old(isStreaming)
        decreases |frames| - j
      {
        FramesOneMore(view0, frames, j, parse);
        thrown, view := ApplyFrame(frames[j], agentId, parse, base, view);
        j := j + 1;
      }
      FramesStopped(view0, frames, j, parse);
    }

    /** The read loop of `sendMessage`: each chunk is added to the buffer,
        the buffer is split, its complete frames are processed and its tail
        is kept for the next read. Over the whole stream this processes its
        complete frames in order, up to the first that throws. */
    method ReadStream(chunks: seq<string>, agentId: string, parse: string -> Option<ChatEvent>,
                      ghost base: seq<AgentMessage>, ghost start: ChatView)
      returns (thrown: bool, ghost view: ChatView)
      requires uploadRequired == start.uploadRequired && sanctionLetter == start.sanctionLetter
      requires |messages| == |base| + 1
      requires FreshId(base, agentId) ==> messages == base + [AgentMessage(agentId, AgentRole, start.content)]
      modifies this
      ensures (view, thrown) == ProcessFrames(start, CompleteFrames(Concat(chunks)), parse)
      ensures uploadRequired == view.uploadRequired && sanctionLetter == view.sanctionLetter
      ensures |messages| == |base| + 1
      ensures FreshId(base, agentId) ==> messages == base + [AgentMessage(agentId, AgentRole, view.content)]
      ensures isStreaming == old(isStreaming)
    {
      thrown := false;
      view := start;
      var buffer := "";
      ghost var done: seq<string> := [];
      var i := 0;
      while i < |chunks| && !thrown
        invariant 0 <= i <= |chunks|
        invariant !thrown ==> Split(Concat(chunks[..i])) == done + [buffer]
                              && ProcessFrames(start, done, parse) == (view, false)
        invariant thrown ==> ProcessFrames(start, CompleteFrames(Concat(chunks)), parse) == (view, true)
        invariant uploadRequired == view.uploadRequired && sanctionLetter == view.sanctionLetter
        invariant |messages| == |base| + 1
        invariant FreshId(base, agentId) ==> messages == base + [AgentMessage(agentId, AgentRole, view.content)]
        invariant isStreaming == old(isStreaming)
        decreases |chunks| - i
      {
        ghost var before := Concat(chunks[..i]);
        ghost var tail := Concat(chunks[i + 1..]);
        ghost var oldBuffer := buffer;
        StreamAt(chunks, i);
        buffer := buffer + chunks[i];
        var parts := Split(buffer);
        var frames := AllButLast(parts);
        FramesOfWhole(before, chunks[i], tail, done, oldBuffer);
        ghost var view1;
        thrown, view1 := ApplyFrames(frames, agentId, parse, base, view);
        ProcessFramesAppend(start, done, frames, parse);
        if thrown {
          ProcessFramesAppend(start, done + frames, CompleteFrames(Last(parts) + tail), parse);
        } else {
          ReadOneChunk(before, chunks[i], done, oldBuffer);
        }
        view := view1;
        done := done + frames;
        buffer := Last(parts);
        i := i + 1;
      }
      if !thrown {
        assert chunks[..i] == chunks;
      }
    }

    /** `sendMessage(content)`. `response` is `None` when the request fails
        or answers without a readable body, otherwise the decoded chunks in
        the order `reader.read()` returns them. Empty input, and input while
        a reply is streaming, are ignored. Otherwise the user message and an
        empty agent message are appended; the complete frames of the whole
        stream are processed in order until one throws; the agent message
        ends with the streamed text or the apology; the unterminated tail of
        the stream is never processed. */
    method SendMessage(content: string, ids: Ids, response: Option<seq<string>>,
                       parse: string -> Option<ChatEvent>)
      modifies this, storage
      ensures Strip(content) == "" || old(isStreaming) ==>
        messages == old(messages) && isStreaming == old(isStreaming)
        && uploadRequired == old(uploadRequired) && sanctionLetter == old(sanctionLetter)
      ensures Strip(content) != "" && !old(isStreaming) ==>
        var base := old(messages) + [AgentMessage(ids.userId, UserRole, Strip(content))];
        var r := if response.None? then (old(View("")), true)
                 else ProcessFrames(old(View("")), CompleteFrames(Concat(response.value)), parse);
        !isStreaming
        && uploadRequired == r.0.uploadRequired && sanctionLetter == r.0.sanctionLetter
        && |messages| == |old(messages)| + 2
        && (FreshId(base, ids.agentId) ==>
              messages == base + [AgentMessage(ids.agentId, AgentRole, ReplyText(r))])
    {
      var trimmed := Strip(content);
      if trimmed == "" || isStreaming {
        return;
      }
      LoadIds(ids.windowDefined, ids.freshSession, ids.freshDevice);
      Exchange(trimmed, ids.userId, ids.agentId, response, parse);
    }

    /** The part of `sendMessage` after its guard: append the user's
        message and an empty agent message, read the reply, and end with the
        streamed text or the apology. */
    method Exchange(trimmed: string, userId: string, agentId: string, response: Option<seq<string>>,
                    parse: string -> Option<ChatEvent>)
      modifies this
      ensures var base := old(messages) + [AgentMessage(userId, UserRole, trimmed)];
        var r := if response.None? then (old(View("")), true)
                 else ProcessFrames(old(View("")), CompleteFrames(Concat(response.value)), parse);
        !isStreaming
        && uploadRequired == r.0.uploadRequired && sanctionLetter == r.0.sanctionLetter
        && |messages| == |old(messages)| + 2
        && (FreshId(base, agentId) ==>
              messages == base + [AgentMessage(agentId, AgentRole, ReplyText(r))])
    {
      messages := messages + [AgentMessage(userId, UserRole, trimmed)];
      ghost var base := messages;
      messages := messages + [AgentMessage(agentId, AgentRole, "")];
      isStreaming := true;
      ghost var start := View("");
      ghost var view := start;
      var thrown := true;
      if response.Some? {
        thrown, view := ReadStream(response.value, agentId, parse, base, start);
      }
      if thrown {
        var apology := prev => SorryText;
        messages := UpdateAgentMessage(messages, agentId, apology);
        if FreshId(base, agentId) {
          UpdateFreshLast(base, AgentMessage(agentId, AgentRole, view.content), apology);
        }
      }
      isStreaming := false;
    }

    /** `uploadSalarySlip(file)`. `reached` is whether the upload request
        got an answer of any status; only a failed request is an error. An
        answered upload lowers the upload flag and sends the fixed message;
        a failed one appends the failure notice from the agent. */
    method UploadSalarySlip(reached: bool, failureId: string, ids: Ids, response: Option<seq<string>>,
                            parse: string -> Option<ChatEvent>)
      modifies this, storage
      ensures !reached ==>
        messages == old(messages) + [AgentMessage(failureId, AgentRole, UploadFailedText)]
        && uploadRequired == old(uploadRequired) && isStreaming == old(isStreaming)
        && sanctionLetter == old(sanctionLetter)
      ensures reached && old(isStreaming) ==>
        !uploadRequired && messages == old(messages)
        && isStreaming && sanctionLetter == old(sanctionLetter)
      ensures reached && !old(isStreaming) ==>
        var base := old(messages) + [AgentMessage(ids.userId, UserRole, SalarySlipUploadedText)];
        var start := ChatView("", false, old(sanctionLetter));
        var r := if response.None? then (start, true)
                 else ProcessFrames(start, CompleteFrames(Concat(response.value)), parse);
        uploadRequired == r.0.uploadRequired && sanctionLetter == r.0.sanctionLetter && !isStreaming
        && |messages| == |old(messages)| + 2
        && (FreshId(base, ids.agentId) ==>
              messages == base + [AgentMessage(ids.agentId, AgentRole, ReplyText(r))])
    {
      if !reached {
        messages := messages + [AgentMessage(failureId, AgentRole, UploadFailedText)];
        return;
      }
      uploadRequired := false;
      UploadedTextIsTrimmed();
      SendMessage(SalarySlipUploadedText, ids, response, parse);
    }
  }
}
