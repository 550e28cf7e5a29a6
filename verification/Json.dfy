/** JSON values, and the two standards the webhook and the rollback rely on to change them:
    JSON Pointer (RFC 6901) with JSON Patch (RFC 6902), and JSON Merge Patch (RFC 7396). */
module Json {
  datatype Json =
    | Null
    | Bool(b: bool)
    | Num(n: int)
    | Str(s: string)
    | Arr(elems: seq<Json>)
    | Obj(members: map<string, Json>)
}

/** JSON Pointer, RFC 6901: a path is "/token/token/...", with '~' and '/' escaped inside tokens. */
module JsonPointer {
  import opened Basics

  function EscapeChar(c: char): string {
    if c == '~' then "~0" else if c == '/' then "~1" else [c]
  }

  /** Escaping of one reference token: '~' becomes "~0", '/' becomes "~1". */
  function Escape(key: string): string {
    if key == "" then "" else EscapeChar(key[0]) + Escape(key[1..])
  }

  /** Replaces every occurrence of '~' followed by `second`, left to right. */
  function ReplacePair(s: string, second: char, sub: char): string {
    if |s| < 2 then s
    else if s[0] == '~' && s[1] == second then [sub] + ReplacePair(s[2..], second, sub)
    else [s[0]] + ReplacePair(s[1..], second, sub)
  }

  /** Section 4 of RFC 6901: first "~1" to '/', then "~0" to '~'. */
  function Unescape(token: string): string {
    ReplacePair(ReplacePair(token, '1', '/'), '0', '~')
  }

  predicate NoSlash(s: string) {
    forall i :: 0 <= i < |s| ==> s[i] != '/'
  }

  predicate Plain(s: string) {
    forall i :: 0 <= i < |s| ==> s[i] != '/' && s[i] != '~'
  }

  /** Escaping '~' alone: what is left after the first decoding pass. */
  function EscapeTilde(key: string): string {
    if key == "" then "" else (if key[0] == '~' then "~0" else [key[0]]) + EscapeTilde(key[1..])
  }

  lemma {:induction false} EscapeNoSlash(key: string)
    ensures NoSlash(Escape(key))
  {
    if key != "" {
      EscapeNoSlash(key[1..]);
    }
  }

  lemma {:induction false} FirstPass(key: string)
    ensures ReplacePair(Escape(key), '1', '/') == EscapeTilde(key)
  {
    if key != "" {
      FirstPass(key[1..]);
      var rest := Escape(key[1..]);
      if key[0] == '~' {
        var s := Escape(key);
        assert s[1..] == "0" + rest;
        assert ("0" + rest)[1..] == rest;
      } else if key[0] == '/' {
        assert Escape(key)[2..] == rest;
      } else {
        assert Escape(key)[1..] == rest;
      }
    }
  }

  lemma {:induction false} SecondPass(key: string)
    ensures ReplacePair(EscapeTilde(key), '0', '~') == key
  {
    if key != "" {
      SecondPass(key[1..]);
      var rest := EscapeTilde(key[1..]);
      if key[0] == '~' {
        assert EscapeTilde(key)[2..] == rest;
      } else {
        assert EscapeTilde(key)[1..] == rest;
      }
    }
  }

  /** The two-pass decoding undoes the escaping for every key, and the escaped key is one token. */
  lemma TokenRoundTrip(key: string)
    ensures Unescape(Escape(key)) == key
    ensures NoSlash(Escape(key))
  {
    FirstPass(key);
    SecondPass(key);
    EscapeNoSlash(key);
  }

  lemma {:induction false} EscapePlain(s: string)
    requires Plain(s)
    ensures Escape(s) == s
  {
    if s != "" {
      EscapePlain(s[1..]);
    }
  }

  function SplitSlash(s: string): (r: seq<string>)
    ensures |r| > 0
  {
    if s == "" then [""]
    else if s[0] == '/' then [""] + SplitSlash(s[1..])
    else var r := SplitSlash(s[1..]); [[s[0]] + r[0]] + r[1..]
  }

  function UnescapeAll(ts: seq<string>): (r: seq<string>)
    ensures |r| == |ts|
  {
    if ts == [] then [] else [Unescape(ts[0])] + UnescapeAll(ts[1..])
  }

  /** Parsing of a pointer; a non-empty pointer that does not start with '/' is malformed. */
  function Parse(path: string): Option<seq<string>> {
    if path == "" then Some([])
    else if path[0] != '/' then None
    else Some(UnescapeAll(SplitSlash(path[1..])))
  }

  function Render(tokens: seq<string>): string {
    if tokens == [] then "" else "/" + Escape(tokens[0]) + Render(tokens[1..])
  }

  lemma {:induction false} SplitToken(a: string, rest: string)
    requires NoSlash(a)
    requires rest == "" || rest[0] == '/'
    ensures SplitSlash(a + rest) == [a] + (if rest == "" then [] else SplitSlash(rest[1..]))
  {
    if a == "" {
      assert a + rest == rest;
    } else {
      assert (a + rest)[1..] == a[1..] + rest;
      SplitToken(a[1..], rest);
      assert (a + rest)[0] != '/';
      assert [a[0]] + a[1..] == a;
    }
  }

  lemma {:induction false} SplitRender(tokens: seq<string>)
    requires tokens != []
    ensures Render(tokens) != "" && Render(tokens)[0] == '/'
    ensures UnescapeAll(SplitSlash(Render(tokens)[1..])) == tokens
  {
    var first, tail := tokens[0], tokens[1..];
    var a, rest := Escape(first), Render(tail);
    TokenRoundTrip(first);
    assert Render(tokens) == "/" + (a + rest);
    assert Render(tokens)[1..] == a + rest;
    if tail != [] {
      SplitRender(tail);
    }
    SplitToken(a, rest);
    UnescapeFirst(a, if rest == "" then [] else SplitSlash(rest[1..]));
    hide Escape, Unescape, NoSlash, Render, SplitSlash;
    assert tokens == [first] + tail;
  }

  lemma UnescapeFirst(t: string, more: seq<string>)
    ensures UnescapeAll([t] + more) == [Unescape(t)] + UnescapeAll(more)
  {
    assert ([t] + more)[1..] == more;
    hide Unescape;
  }

  /** Every token list survives rendering and parsing. */
  lemma ParseRender(tokens: seq<string>)
    ensures Parse(Render(tokens)) == Some(tokens)
  {
    if tokens != [] {
      SplitRender(tokens);
    }
    hide SplitSlash, UnescapeAll;
  }

  /** Array indices, section 4 of RFC 6901: decimal digits without a leading zero. */
  function ParseIndex(token: string): Option<nat> {
    if AllDigits(token) && (|token| == 1 || token[0] != '0') then Some(DecimalValue(token)) else None
  }

  lemma IndexRoundTrip(n: nat)
    ensures ParseIndex(Itoa(n)) == Some(n)
    ensures Plain(Itoa(n))
  {
    ItoaRoundTrip(n);
  }
}

/** JSON Patch, section 4 of RFC 6902, with its strict rules: the parent must exist, and the target of
    remove and replace must exist. */
module JsonPatch {
  import opened Basics
  import opened Json
  import opened JsonPointer

  datatype Edit = Add(value: Json) | Replace(value: Json) | Remove

  datatype PatchOp = PatchOp(path: string, edit: Edit)

  function Child(doc: Json, token: string): Option<Json> {
    match doc
    case Obj(m) => if token in m then Some(m[token]) else None
    case Arr(elems) =>
      (match ParseIndex(token)
       case Some(i) => if i < |elems| then Some(elems[i]) else None
       case None => None)
    case _ => None
  }

  function WithChild(doc: Json, token: string, v: Json): Json
    requires Child(doc, token).Some?
  {
    match doc
    case Obj(m) => Obj(m[token := v])
    case Arr(elems) => Arr(elems[ParseIndex(token).value := v])
  }

  /** One operation on the member or element `token` of its parent. */
  function EditChild(doc: Json, token: string, e: Edit): Option<Json> {
    match doc
    case Obj(m) =>
      (match e
       case Add(v) => Some(Obj(m[token := v]))
       case Replace(v) => if token in m then Some(Obj(m[token := v])) else None
       case Remove => if token in m then Some(Obj(m - {token})) else None)
    case Arr(elems) =>
      if e.Add? && token == "-" then Some(Arr(elems + [e.value])) else
      (match ParseIndex(token)
       case None => None
       case Some(i) =>
         match e
         case Add(v) => if i <= |elems| then Some(Arr(elems[..i] + [v] + elems[i..])) else None
         case Replace(v) => if i < |elems| then Some(Arr(elems[i := v])) else None
         case Remove => if i < |elems| then Some(Arr(elems[..i] + elems[i + 1..])) else None)
    case _ => None
  }

  function EditAt(doc: Json, tokens: seq<string>, e: Edit): Option<Json> {
    if tokens == [] then (if e.Remove? then None else Some(e.value))
    else if |tokens| == 1 then EditChild(doc, tokens[0], e)
    else
      match Child(doc, tokens[0])
      case None => None
      case Some(child) =>
        match EditAt(child, tokens[1..], e)
        case None => None
        case Some(v) => Some(WithChild(doc, tokens[0], v))
  }

  function ApplyOp(doc: Json, op: PatchOp): Option<Json> {
    match Parse(op.path)
    case None => None
    case Some(tokens) => EditAt(doc, tokens, op.edit)
  }

  /** The operations in order; the whole patch fails when one of them does. */
  function Apply(doc: Json, ops: seq<PatchOp>): Option<Json>
    decreases |ops|
  {
    if ops == [] then Some(doc)
    else
      match ApplyOp(doc, ops[0])
      case None => None
      case Some(doc') => Apply(doc', ops[1..])
  }

  lemma {:induction false} ApplyConcat(doc: Json, a: seq<PatchOp>, b: seq<PatchOp>)
    ensures Apply(doc, a + b) ==
            match Apply(doc, a) case None => None case Some(d) => Apply(d, b)
    decreases |a|
  {
    if a == [] {
      assert a + b == b;
    } else {
      assert (a + b)[1..] == a[1..] + b;
      match ApplyOp(doc, a[0])
      case None =>
      case Some(d) => ApplyConcat(d, a[1..], b);
    }
  }

  /** The value a path designates, if it exists. */
  function At(doc: Json, path: seq<string>): Option<Json> {
    if path == [] then Some(doc)
    else match Child(doc, path[0]) case None => None case Some(c) => At(c, path[1..])
  }

  function PutAt(doc: Json, path: seq<string>, v: Json): Json
    requires At(doc, path).Some?
  {
    if path == [] then v
    else WithChild(doc, path[0], PutAt(Child(doc, path[0]).value, path[1..], v))
  }

  lemma {:induction false} PutAtLaws(doc: Json, path: seq<string>, v: Json, w: Json)
    requires At(doc, path).Some?
    ensures At(PutAt(doc, path, v), path) == Some(v)
    ensures PutAt(PutAt(doc, path, v), path, w) == PutAt(doc, path, w)
    ensures PutAt(doc, path, At(doc, path).value) == doc
  {
    if path != [] {
      PutAtLaws(Child(doc, path[0]).value, path[1..], v, w);
    }
  }

  /** An operation whose path goes through `path` acts on the value found there, and nowhere else. */
  lemma {:induction false} EditIsLocal(doc: Json, path: seq<string>, rest: seq<string>, e: Edit)
    requires At(doc, path).Some? && rest != []
    ensures EditAt(doc, path + rest, e) ==
            match EditAt(At(doc, path).value, rest, e)
            case None => None
            case Some(v) => Some(PutAt(doc, path, v))
  {
    if path == [] {
      assert path + rest == rest;
    } else {
      assert (path + rest)[1..] == path[1..] + rest;
      EditIsLocal(Child(doc, path[0]).value, path[1..], rest, e);
    }
  }
}

/** JSON Merge Patch, section 2 of RFC 7396. */
module JsonMergePatch {
  import opened Json

  function Members(j: Json): map<string, Json> {
    if j.Obj? then j.members else map[]
  }

  function Merge(target: Json, patch: Json): Json
    decreases patch
  {
    if !patch.Obj? then patch
    else
      var base := Members(target);
      Obj(map k | k in base.Keys + patch.members.Keys && !(k in patch.members && patch.members[k].Null?) ::
            if k in patch.members then Merge(if k in base then base[k] else Null, patch.members[k])
            else base[k])
  }
}
