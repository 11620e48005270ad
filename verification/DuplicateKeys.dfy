/**
 * The duplicate-key check of a configuration document: a scanner that walks the raw text with
 * a stack of frames, against the tree the text derives.
 */
module DuplicateKeys {
  import opened Util
  import opened JsonText

  // ---- what is meant, on the tree ----

  /** A key under a path; under the empty path it stands alone. */
  function Join(path: Units, key: Units): Units {
    if path == [] then key else path + [0x2E] + key
  }

  /** The path of the first repeated key of `v` in text order; array positions do not show in it. */
  function FirstRepeat(v: Value, path: Units): Option<Units>
    requires ValueValid(v)
    decreases v
  {
    match v
    case Array(_, items) => FirstRepeatOfItems(items, path)
    case Object(_, members) => FirstRepeatOfMembers(members, path, {})
    case _ => None
  }

  function FirstRepeatOfItems(items: Items, path: Units): Option<Units>
    requires ItemsValid(items)
    decreases items
  {
    match items
    case NoItems => None
    case Item(_, value, _, rest) =>
      var first := FirstRepeat(value, path);
      if first.Some? then first else FirstRepeatOfItems(rest, path)
  }

  function FirstRepeatOfMembers(members: Members, path: Units, keys: set<Units>): Option<Units>
    requires MembersValid(members)
    decreases members
  {
    match members
    case NoMembers => None
    case Member(_, name, _, _, value, _, rest) =>
      var key := Meaning(name);
      var at := Join(path, key);
      if key in keys then Some(at)
      else
        var first := FirstRepeat(value, at);
        if first.Some? then first else FirstRepeatOfMembers(rest, path, keys + {key})
  }

  // ---- the scanner, on what is left of the text ----

  datatype Frame = InArray(path: Units) | InObject(path: Units, keys: set<Units>, awaitingKey: bool)

  /** How far the closing quote is, escapes skipped; past the end when there is none. */
  function Closing(rest: Units): nat
    decreases |rest|
  {
    if rest == [] || rest[0] == QUOTE then 0
    else if rest[0] == BACKSLASH then 2 + (if |rest| < 2 then 0 else Closing(rest[2..]))
    else 1 + Closing(rest[1..])
  }

  /** The string opened just before `rest` ends, and reads as a string. */
  predicate Closes(rest: Units) {
    var n := Closing(rest);
    n < |rest| && rest[n] == QUOTE && Decode(rest[..n]).Some?
  }

  function Top(frames: seq<Frame>): Option<Frame> {
    if frames == [] then None else Some(frames[|frames| - 1])
  }

  predicate AwaitsKey(frames: seq<Frame>) {
    Top(frames).Some? && Top(frames).value.InObject? && Top(frames).value.awaitingKey
  }

  function WithTop(frames: seq<Frame>, f: Frame): (r: seq<Frame>)
    requires frames != []
    ensures |r| == |frames|
  {
    frames[..|frames| - 1] + [f]
  }

  function PathOf(frames: seq<Frame>, lastKey: Units): Units {
    if Top(frames).Some? && Top(frames).value.InArray? then Top(frames).value.path else lastKey
  }

  /** Everything the scanner carries from one structural character to the next. */
  datatype State = State(frames: seq<Frame>, lastKey: Units)

  function Scan(rest: Units, s: State): Option<Units>
    decreases |rest|
  {
    if rest == [] then None
    else if rest[0] == QUOTE then
      if !Closes(rest[1..]) then None
      else
        var n := Closing(rest[1..]);
        var after := rest[n + 2..];
        if AwaitsKey(s.frames) then
          var key := Decode(rest[1..][..n]).value;
          var top := Top(s.frames).value;
          var at := Join(top.path, key);
          if key in top.keys then Some(at)
          else Scan(after, State(WithTop(s.frames, InObject(top.path, top.keys + {key}, false)), at))
        else Scan(after, s)
    else Scan(rest[1..], Pass(rest[0], s))
  }

  /** One character outside strings. */
  function Pass(u: Unit, s: State): State {
    if u == LBRACE then s.(frames := s.frames + [InObject(PathOf(s.frames, s.lastKey), {}, true)])
    else if u == LBRACKET then s.(frames := s.frames + [InArray(PathOf(s.frames, s.lastKey))])
    else if u == RBRACE || u == RBRACKET then
      if s.frames == [] then s else s.(frames := s.frames[..|s.frames| - 1])
    else if u == COMMA && Top(s.frames).Some? && Top(s.frames).value.InObject? then
      s.(frames := WithTop(s.frames, Top(s.frames).value.(awaitingKey := true)))
    else s
  }

  /** Every string the scanner meets in `rest` closes. */
  predicate Safe(rest: Units)
    decreases |rest|
  {
    rest == [] ||
    if rest[0] == QUOTE then Closes(rest[1..]) && Safe(rest[Closing(rest[1..]) + 2..])
    else Safe(rest[1..])
  }

  // ---- strings and plain characters ----

  predicate IsPlain(u: Unit) {
    u != QUOTE && u != LBRACE && u != RBRACE && u != LBRACKET && u != RBRACKET && u != COMMA
  }

  /** Characters outside strings that mean nothing to the scanner. */
  lemma {:induction false} PlainSkipped(skip: Units, post: Units, s: State)
    requires forall u :: u in skip ==> IsPlain(u)
    ensures Scan(skip + post, s) == Scan(post, s)
    ensures Safe(skip + post) == Safe(post)
  {
    if skip == [] {
      assert skip + post == post;
    } else {
      assert (skip + post)[1..] == skip[1..] + post;
      assert IsPlain(skip[0]);
      PlainSkipped(skip[1..], post, s);
    }
  }

  lemma {:induction false} ClosingOfRaw(cs: seq<Char>, post: Units)
    requires CharsValid(cs)
    ensures Closing(Raw(cs) + ([QUOTE] + post)) == |Raw(cs)|
  {
    var text := Raw(cs) + ([QUOTE] + post);
    if cs == [] {
      assert text == [QUOTE] + post;
    } else {
      var after := Raw(cs[1..]) + ([QUOTE] + post);
      assert CharValid(cs[0]) && text == CharText(cs[0]) + after;
      ClosingOfRaw(cs[1..], post);
      ClosingOfChar(cs[0], after);
    }
  }

  lemma ClosingOfChar(c: Char, after: Units)
    requires CharValid(c)
    ensures Closing(CharText(c) + after) == |CharText(c)| + Closing(after)
  {
    var text := CharText(c) + after;
    match c
    case Plain(u) => assert text[1..] == after;
    case Escaped(letter) => assert text[2..] == after;
    case Unicode(h1, h2, h3, h4) =>
      HexSkipped([h1, h2, h3, h4], after);
      assert text[2..] == [h1, h2, h3, h4] + after;
  }

  lemma {:induction false} HexSkipped(digits: Units, after: Units)
    requires forall u :: u in digits ==> HexValue(u).Some?
    ensures Closing(digits + after) == |digits| + Closing(after)
  {
    if digits == [] {
      assert digits + after == after;
    } else {
      assert HexValue(digits[0]).Some?;
      assert (digits + after)[1..] == digits[1..] + after;
      HexSkipped(digits[1..], after);
    }
  }

  /** A written string closes where it should, reads as what it means, and leaves the rest. */
  lemma StringRead(cs: seq<Char>, post: Units)
    requires CharsValid(cs)
    ensures var rest := StringText(cs, post)[1..];
            && Closes(rest) && Decode(rest[..Closing(rest)]) == Some(Meaning(cs))
            && StringText(cs, post)[Closing(rest) + 2..] == post
  {
    var rest := StringText(cs, post)[1..];
    assert rest == Raw(cs) + ([QUOTE] + post);
    ClosingOfRaw(cs, post);
    DecodeRaw(cs);
    assert rest[..|Raw(cs)|] == Raw(cs) && rest[|Raw(cs)|] == QUOTE;
    assert StringText(cs, post)[|Raw(cs)| + 2..] == post;
  }

  lemma StringSkipped(cs: seq<Char>, post: Units, s: State)
    requires CharsValid(cs)
    ensures Safe(StringText(cs, post)) == Safe(post)
    ensures !AwaitsKey(s.frames) ==> Scan(StringText(cs, post), s) == Scan(post, s)
  {
    StringRead(cs, post);
  }

  lemma KeyScanned(cs: seq<Char>, post: Units, s: State)
    requires CharsValid(cs) && AwaitsKey(s.frames)
    ensures var top, key := Top(s.frames).value, Meaning(cs);
            var at := Join(top.path, key);
            Scan(StringText(cs, post), s) ==
            if key in top.keys then Some(at)
            else Scan(post, State(WithTop(s.frames, InObject(top.path, top.keys + {key}, false)), at))
  {
    StringRead(cs, post);
    assert StringText(cs, post)[1..][..Closing(StringText(cs, post)[1..])]
           == StringText(cs, post)[1..][..Closing(StringText(cs, post)[1..])];
  }

  lemma OnePassed(u: Unit, post: Units, s: State)
    requires u != QUOTE
    ensures Scan([u] + post, s) == Scan(post, Pass(u, s)) && Safe([u] + post) == Safe(post)
  {
    assert ([u] + post)[1..] == post;
  }

  lemma BlankIsPlain(ws: Units)
    requires Blank(ws)
    ensures forall u :: u in ws ==> IsPlain(u)
  {
  }

  lemma NumberIsPlain(n: Number)
    requires NumberValid(n)
    ensures forall u :: u in NumberText(n) ==> IsPlain(u)
  {
  }

  // ---- the scanner on a tree's text ----

  /** The last key the scanner saw once it is past `v`. */
  function LastKey(v: Value, path: Units, last: Units): Units
    requires ValueValid(v)
    decreases v
  {
    match v
    case Array(_, items) => LastKeyOfItems(items, path, last)
    case Object(_, members) => LastKeyOfMembers(members, path, last)
    case _ => last
  }

  function LastKeyOfItems(items: Items, path: Units, last: Units): Units
    requires ItemsValid(items)
    decreases items
  {
    match items
    case NoItems => last
    case Item(_, value, _, rest) => LastKeyOfItems(rest, path, LastKey(value, path, last))
  }

  function LastKeyOfMembers(members: Members, path: Units, last: Units): Units
    requires MembersValid(members)
    decreases members
  {
    match members
    case NoMembers => last
    case Member(_, name, _, _, value, _, rest) =>
      var at := Join(path, Meaning(name));
      LastKeyOfMembers(rest, path, LastKey(value, at, at))
  }

  function OrElse(first: Option<Units>, other: Option<Units>): Option<Units> {
    if first.Some? then first else other
  }

  lemma Skip(ws: Units, post: Units, s: State)
    requires Blank(ws)
    ensures Scan(ws + post, s) == Scan(post, s)
    ensures Safe(ws + post) == Safe(post)
  {
    BlankIsPlain(ws);
    PlainSkipped(ws, post, s);
  }

  /** Pushing a frame and popping it again. */
  lemma Popped(frames: seq<Frame>, f: Frame)
    ensures (frames + [f])[..|frames + [f]| - 1] == frames
  {
  }

  /**
   * The scanner on the text of a value: it reports that value's first repeat, or goes on after
   * it in the state it was in, but for the last key.
   */
  lemma {:induction false} ValueScanned(v: Value, post: Units, s: State)
    requires ValueValid(v) && !AwaitsKey(s.frames)
    ensures var path := PathOf(s.frames, s.lastKey);
            Scan(ValueText(v, post), s) ==
            OrElse(FirstRepeat(v, path), Scan(post, State(s.frames, LastKey(v, path, s.lastKey))))
    decreases v
  {
    var path := PathOf(s.frames, s.lastKey);
    match v
    case Null => PlainSkipped(NULL_WORD, post, s);
    case True => PlainSkipped(TRUE_WORD, post, s);
    case False => PlainSkipped(FALSE_WORD, post, s);
    case Num(n) =>
      NumberIsPlain(n);
      PlainSkipped(NumberText(n), post, s);
    case Str(cs) => StringSkipped(cs, post, s);
    case Array(blank, items) =>
      var inner := ItemsText(items, [RBRACKET] + post);
      var pushed := State(s.frames + [InArray(path)], s.lastKey);
      OnePassed(LBRACKET, blank + inner, s);
      Skip(blank, inner, pushed);
      ItemsScanned(items, [RBRACKET] + post, pushed);
      OnePassed(RBRACKET, post, State(pushed.frames, LastKeyOfItems(items, path, s.lastKey)));
      Popped(s.frames, InArray(path));
    case Object(blank, members) =>
      var inner := MembersText(members, [RBRACE] + post);
      var pushed := State(s.frames + [InObject(path, {}, true)], s.lastKey);
      OnePassed(LBRACE, blank + inner, s);
      Skip(blank, inner, pushed);
      MembersScanned(members, post, s.frames, path, {}, s.lastKey);
  }

  lemma {:induction false} ItemsScanned(items: Items, post: Units, s: State)
    requires ItemsValid(items) && Top(s.frames).Some? && Top(s.frames).value.InArray?
    ensures var path := Top(s.frames).value.path;
            Scan(ItemsText(items, post), s) ==
            OrElse(FirstRepeatOfItems(items, path), Scan(post, State(s.frames, LastKeyOfItems(items, path, s.lastKey))))
    decreases items
  {
    match items
    case NoItems =>
    case Item(before, value, after, rest) =>
      var path := Top(s.frames).value.path;
      var tail := if rest == NoItems then post else [COMMA] + ItemsText(rest, post);
      var next := State(s.frames, LastKey(value, path, s.lastKey));
      Skip(before, ValueText(value, after + tail), s);
      ValueScanned(value, after + tail, s);
      Skip(after, tail, next);
      if rest != NoItems { OnePassed(COMMA, ItemsText(rest, post), next); }
      ItemsScanned(rest, post, next);
  }

  /** The members of an object, up to and over its closing brace. */
  lemma {:induction false} MembersScanned(members: Members, post: Units, frames: seq<Frame>, path: Units, keys: set<Units>, last: Units)
    requires MembersValid(members)
    ensures Scan(MembersText(members, [RBRACE] + post), State(frames + [InObject(path, keys, true)], last)) ==
            OrElse(FirstRepeatOfMembers(members, path, keys), Scan(post, State(frames, LastKeyOfMembers(members, path, last))))
    decreases members
  {
    match members
    case NoMembers =>
      Closed(post, frames, InObject(path, keys, true), last);
    case Member(before, name, beforeColon, afterColon, value, after, rest) =>
      var key := Meaning(name);
      var at := Join(path, key);
      var tail := if rest == NoMembers then [RBRACE] + post else [COMMA] + MembersText(rest, [RBRACE] + post);
      var valued := ValueText(value, after + tail);
      NameScanned(before, name, beforeColon, afterColon, valued, frames, path, keys, last);
      if key !in keys {
        var s := State(frames + [InObject(path, keys + {key}, false)], at);
        ValueScanned(value, after + tail, s);
        var next := State(s.frames, LastKey(value, at, at));
        Skip(after, tail, next);
        if rest == NoMembers {
          Closed(post, frames, InObject(path, keys + {key}, false), next.lastKey);
        } else {
          OnePassed(COMMA, MembersText(rest, [RBRACE] + post), next);
          Popped(frames, InObject(path, keys + {key}, false));
          MembersScanned(rest, post, frames, path, keys + {key}, next.lastKey);
        }
      }
  }

  lemma Closed(post: Units, frames: seq<Frame>, f: Frame, last: Units)
    ensures Scan([RBRACE] + post, State(frames + [f], last)) == Scan(post, State(frames, last))
  {
    OnePassed(RBRACE, post, State(frames + [f], last));
    Popped(frames, f);
  }

  /** A member's name and colon. */
  lemma NameScanned(before: Units, name: seq<Char>, beforeColon: Units, afterColon: Units, valued: Units,
                    frames: seq<Frame>, path: Units, keys: set<Units>, last: Units)
    requires Blank(before) && CharsValid(name) && Blank(beforeColon) && Blank(afterColon)
    ensures Scan(before + StringText(name, beforeColon + ([COLON] + (afterColon + valued))),
                 State(frames + [InObject(path, keys, true)], last)) ==
            if Meaning(name) in keys then Some(Join(path, Meaning(name)))
            else Scan(valued, State(frames + [InObject(path, keys + {Meaning(name)}, false)], Join(path, Meaning(name))))
  {
    var s := State(frames + [InObject(path, keys, true)], last);
    var colon := [COLON] + (afterColon + valued);
    Skip(before, StringText(name, beforeColon + colon), s);
    KeyScanned(name, beforeColon + colon, s);
    if Meaning(name) !in keys {
      Popped(frames, InObject(path, keys, true));
      var named := State(frames + [InObject(path, keys + {Meaning(name)}, false)], Join(path, Meaning(name)));
      Skip(beforeColon, colon, named);
      OnePassed(COLON, afterColon + valued, named);
      Skip(afterColon, valued, named);
    }
  }

  // ---- every string of a JSON text closes ----

  lemma {:induction false} ValueSafe(v: Value, post: Units)
    requires ValueValid(v)
    ensures Safe(ValueText(v, post)) == Safe(post)
    decreases v
  {
    var s := State([], []);
    match v
    case Null => PlainSkipped(NULL_WORD, post, s);
    case True => PlainSkipped(TRUE_WORD, post, s);
    case False => PlainSkipped(FALSE_WORD, post, s);
    case Num(n) =>
      NumberIsPlain(n);
      PlainSkipped(NumberText(n), post, s);
    case Str(cs) => StringSkipped(cs, post, s);
    case Array(blank, items) =>
      OnePassed(LBRACKET, blank + ItemsText(items, [RBRACKET] + post), s);
      Skip(blank, ItemsText(items, [RBRACKET] + post), s);
      ItemsSafe(items, [RBRACKET] + post);
      OnePassed(RBRACKET, post, s);
    case Object(blank, members) =>
      OnePassed(LBRACE, blank + MembersText(members, [RBRACE] + post), s);
      Skip(blank, MembersText(members, [RBRACE] + post), s);
      MembersSafe(members, [RBRACE] + post);
      OnePassed(RBRACE, post, s);
  }

  lemma {:induction false} ItemsSafe(items: Items, post: Units)
    requires ItemsValid(items)
    ensures Safe(ItemsText(items, post)) == Safe(post)
    decreases items
  {
    match items
    case NoItems =>
    case Item(before, value, after, rest) =>
      var tail := if rest == NoItems then post else [COMMA] + ItemsText(rest, post);
      Skip(before, ValueText(value, after + tail), State([], []));
      ValueSafe(value, after + tail);
      Skip(after, tail, State([], []));
      if rest != NoItems { OnePassed(COMMA, ItemsText(rest, post), State([], [])); }
      ItemsSafe(rest, post);
  }

  lemma {:induction false} MembersSafe(members: Members, post: Units)
    requires MembersValid(members)
    ensures Safe(MembersText(members, post)) == Safe(post)
    decreases members
  {
    match members
    case NoMembers =>
    case Member(before, name, beforeColon, afterColon, value, after, rest) =>
      var s := State([], []);
      var tail := if rest == NoMembers then post else [COMMA] + MembersText(rest, post);
      var valued := ValueText(value, after + tail);
      Skip(before, StringText(name, beforeColon + ([COLON] + (afterColon + valued))), s);
      StringSkipped(name, beforeColon + ([COLON] + (afterColon + valued)), s);
      Skip(beforeColon, [COLON] + (afterColon + valued), s);
      OnePassed(COLON, afterColon + valued, s);
      Skip(afterColon, valued, s);
      ValueSafe(value, after + tail);
      Skip(after, tail, s);
      if rest != NoMembers { OnePassed(COMMA, MembersText(rest, post), s); }
      MembersSafe(rest, post);
  }

  lemma JsonSafe(text: Units)
    requires IsJson(text)
    ensures Safe(text)
  {
    var d :| DocumentValid(d) && DocumentText(d) == text;
    Skip(d.before, ValueText(d.value, d.after), State([], []));
    ValueSafe(d.value, d.after);
    assert d.after + [] == d.after;
    Skip(d.after, [], State([], []));
  }

  /** On any tree a text derives, the scanner's answer is that tree's first repeat. */
  lemma DocumentScanned(d: Document)
    requires DocumentValid(d)
    ensures Scan(DocumentText(d), State([], [])) == FirstRepeat(d.value, [])
  {
    var s := State([], []);
    Skip(d.before, ValueText(d.value, d.after), s);
    ValueScanned(d.value, d.after, s);
    assert d.after + [] == d.after;
    Skip(d.after, [], State([], LastKey(d.value, [], [])));
  }

  // ---- the scanner itself ----

  /** The index of the quote that closes the string opened at `i`. */
  method EndOfString(text: Units, i: nat) returns (end: nat)
    requires i < |text| && Closes(text[i + 1..])
    ensures end == i + 1 + Closing(text[i + 1..])
  {
    end := i + 1;
    while text[end] != QUOTE
      invariant i < end <= |text| && end + Closing(text[end..]) == i + 1 + Closing(text[i + 1..])
      decreases |text| - end
    {
      ghost var rest := text[end..];
      assert rest[1..] == text[end + 1..];
      if text[end] == BACKSLASH {
        assert |rest| >= 2;
        assert rest[2..] == text[end + 2..];
        end := end + 2;
      } else {
        end := end + 1;
      }
    }
  }

  /** The state once the key `key` has been read and is new. */
  function Named(s: State, key: Units): State
    requires AwaitsKey(s.frames)
  {
    var top := Top(s.frames).value;
    State(WithTop(s.frames, InObject(top.path, top.keys + {key}, false)), Join(top.path, key))
  }

  /** A quote at `i`: its string closes, reads as a string, and the rest is safe again. */
  lemma StringAt(text: Units, i: nat)
    requires i < |text| && text[i] == QUOTE && Safe(text[i..])
    ensures Closes(text[i + 1..])
    ensures var end := i + 1 + Closing(text[i + 1..]);
            end < |text| && Safe(text[end + 1..]) && Decode(text[i + 1..end]).Some?
  {
    assert text[i..][1..] == text[i + 1..];
    var n := Closing(text[i + 1..]);
    assert text[i..][n + 2..] == text[i + 1 + n + 1..];
    assert text[i + 1..][..n] == text[i + 1..i + 1 + n];
  }

  /** A string that is no key is passed over at once. */
  lemma PastString(text: Units, i: nat, end: nat, s: State)
    requires i < end < |text| && text[i] == QUOTE && Closes(text[i + 1..]) && end == i + 1 + Closing(text[i + 1..])
    requires !AwaitsKey(s.frames)
    ensures Scan(text[i..], s) == Scan(text[end + 1..], s)
  {
    assert text[i..][1..] == text[i + 1..];
    assert text[i..][end - i + 1..] == text[end + 1..];
  }

  /** A key is looked up among those its object has had. */
  lemma PastKey(text: Units, i: nat, end: nat, key: Units, s: State)
    requires i < end < |text| && text[i] == QUOTE && Closes(text[i + 1..]) && end == i + 1 + Closing(text[i + 1..])
    requires AwaitsKey(s.frames) && Decode(text[i + 1..end]) == Some(key)
    ensures Scan(text[i..], s) ==
            var top := Top(s.frames).value;
            if key in top.keys then Some(Join(top.path, key)) else Scan(text[end + 1..], Named(s, key))
  {
    assert text[i..][1..] == text[i + 1..];
    assert text[i..][end - i + 1..] == text[end + 1..];
    assert text[i + 1..][..end - i - 1] == text[i + 1..end];
  }

  /** Anything else at `i`. */
  lemma AtOther(text: Units, i: nat, s: State)
    requires i < |text| && text[i] != QUOTE && Safe(text[i..])
    ensures Safe(text[i + 1..]) && Scan(text[i..], s) == Scan(text[i + 1..], Pass(text[i], s))
  {
    assert text[i..][1..] == text[i + 1..];
  }

  lemma TreesAgree(text: Units)
    requires IsJson(text)
    ensures Safe(text)
    ensures forall d :: DocumentValid(d) && DocumentText(d) == text ==> Scan(text, State([], [])) == FirstRepeat(d.value, [])
  {
    JsonSafe(text);
    forall d | DocumentValid(d) && DocumentText(d) == text
      ensures Scan(text, State([], [])) == FirstRepeat(d.value, [])
    {
      DocumentScanned(d);
    }
  }

  lemma AtEnd(s: State)
    ensures Scan([], s) == None
  {
  }

  /** Where the document first uses a key twice within one object, if it does. */
  method RepeatedKey(text: Units) returns (r: Option<Units>)
    requires IsJson(text)
    ensures forall d :: DocumentValid(d) && DocumentText(d) == text ==> r == FirstRepeat(d.value, [])
  {
    hide Scan, Safe, Closing, Closes, Decode, FirstRepeat, DocumentText, DocumentValid, IsJson;
    TreesAgree(text);
    var frames: seq<Frame>, lastKey: Units := [], [];
    var i := 0;
    assert text[0..] == text;
    while i < |text|
      invariant i <= |text| && Safe(text[i..])
      invariant Scan(text[i..], State(frames, lastKey)) == Scan(text, State([], []))
    {
      var u := text[i];
      ghost var s := State(frames, lastKey);
      if u == QUOTE {
        StringAt(text, i);
        var end := EndOfString(text, i);
        if frames != [] && frames[|frames| - 1].InObject? && frames[|frames| - 1].awaitingKey {
          var frame := frames[|frames| - 1];
          var key := Decode(text[i + 1..end]).value;
          PastKey(text, i, end, key, s);
          lastKey := if frame.path != [] then frame.path + [0x2E] + key else key;
          if key in frame.keys { return Some(lastKey); }
          frames := frames[|frames| - 1 := InObject(frame.path, frame.keys + {key}, false)];
          assert State(frames, lastKey) == Named(s, key);
        } else {
          PastString(text, i, end, s);
        }
        i := end;
      } else {
        AtOther(text, i, s);
        if u == LBRACE || u == LBRACKET {
          var path := if frames != [] && frames[|frames| - 1].InArray? then frames[|frames| - 1].path else lastKey;
          frames := frames + [if u == LBRACE then InObject(path, {}, true) else InArray(path)];
        } else if u == RBRACE || u == RBRACKET {
          if frames != [] { frames := frames[..|frames| - 1]; }
        } else if u == COMMA {
          if frames != [] && frames[|frames| - 1].InObject? {
            frames := frames[|frames| - 1 := frames[|frames| - 1].(awaitingKey := true)];
          }
        }
        assert State(frames, lastKey) == Pass(u, s);
      }
      i := i + 1;
    }
    assert text[i..] == [];
    AtEnd(State(frames, lastKey));
    r := None;
  }
}
