/** Redaction of request bodies before they enter the audit log. */
module Sanitizer {

  datatype Field = Field(key: string, value: Json)

  datatype Json =
    | Null
    | Bool(b: bool)
    | Num(n: real)
    | Text(s: string)
    | Arr(items: seq<Json>)
    | Obj(fields: seq<Field>)
  {
    predicate Container() { Arr? || Obj? }
  }

  const REDACTED := Text("[REDACTED]")
  const TRUNCATED := Text("[TRUNCATED: too deep]")
  const MAX_ITEMS := 50
  const MAX_DEPTH := 3

  // ---- Sensitive keys ----

  function LowerChar(c: char): char { if 'A' <= c <= 'Z' then c - 'A' + 'a' else c }

  function Lower(s: string): string { seq(|s|, i requires 0 <= i < |s| => LowerChar(s[i])) }

  predicate OccursAt(s: string, word: string, i: nat) { i + |word| <= |s| && s[i..i + |word|] == word }

  predicate Contains(s: string, word: string) {
    exists i | 0 <= i <= |s| :: OccursAt(s, word, i)
  }

  /** Substring match without regard to case, so newPassword and refreshToken are caught. */
  predicate Sensitive(key: string) {
    var k := Lower(key);
    || Contains(k, "password") || Contains(k, "senha") || Contains(k, "secret") || Contains(k, "token")
    || Contains(k, "salt") || Contains(k, "csrf") || Contains(k, "authorization") || Contains(k, "otp")
    || k == "code"
  }

  /** Case is folded for the 26 letters of ASCII and for nothing else. */
  lemma {:induction false} LowerCaseMeans(c: char)
    ensures 65 <= c as int <= 90 ==> LowerChar(c) as int == c as int + 32
    ensures c as int < 65 || 90 < c as int ==> LowerChar(c) == c
  {
  }

  lemma {:induction false} ContainsIff(s: string, word: string)
    ensures Contains(s, word) <==> exists a: string, b: string :: s == a + word + b
  {
    if Contains(s, word) {
      var i :| 0 <= i <= |s| && OccursAt(s, word, i);
      assert s == s[..i] + word + s[i + |word|..];
    }
    if exists a: string, b: string :: s == a + word + b {
      var a: string, b: string :| s == a + word + b;
      assert OccursAt(s, word, |a|);
    }
  }

  /** Anything around a sensitive word, in whatever case it is written. */
  predicate Around(key: string, word: string) { exists i, j | 0 <= i <= j <= |key| :: Lower(key[i..j]) == word }

  lemma {:induction false} AroundIff(key: string, word: string)
    ensures Contains(Lower(key), word) <==> Around(key, word)
  {
    if Contains(Lower(key), word) {
      var i :| 0 <= i <= |key| && OccursAt(Lower(key), word, i);
      assert Lower(key[i..i + |word|]) == Lower(key)[i..i + |word|];
    }
    if Around(key, word) {
      var i, j :| 0 <= i <= j <= |key| && Lower(key[i..j]) == word;
      assert Lower(key)[i..j] == Lower(key[i..j]) && j == i + |word|;
      assert OccursAt(Lower(key), word, i);
    }
  }

  /** A key is sensitive exactly when one of eight words occurs in it, in any case, as in
      newPassword or refreshToken, or it is the word code. */
  lemma {:induction false} SensitiveIff(key: string)
    ensures Sensitive(key) <==>
      || Around(key, "password") || Around(key, "senha") || Around(key, "secret") || Around(key, "token")
      || Around(key, "salt") || Around(key, "csrf") || Around(key, "authorization") || Around(key, "otp")
      || Lower(key) == "code"
  {
    AroundIff(key, "password");
    AroundIff(key, "senha");
    AroundIff(key, "secret");
    AroundIff(key, "token");
    AroundIff(key, "salt");
    AroundIff(key, "csrf");
    AroundIff(key, "authorization");
    AroundIff(key, "otp");
  }

  // ---- sanitizeValue ----

  function Slice(items: seq<Json>): seq<Json> { if |items| > MAX_ITEMS then items[..MAX_ITEMS] else items }

  function Sanitize(v: Json, depth: nat): Json
    decreases v
  {
    if !v.Container() then v
    else if depth > MAX_DEPTH then TRUNCATED
    else if v.Arr? then
      var kept := Slice(v.items);
      Arr(seq(|kept|, i requires 0 <= i < |kept| => Sanitize(v.items[i], depth + 1)))
    else
      Obj(seq(|v.fields|, i requires 0 <= i < |v.fields| => SanitizeField(v.fields[i], depth)))
  }

  function SanitizeField(f: Field, depth: nat): Field
    decreases f
  {
    Field(f.key, if Sensitive(f.key) then REDACTED else Sanitize(f.value, depth + 1))
  }

  method SanitizeValue(value: Json, depth: nat) returns (r: Json)
    ensures r == Sanitize(value, depth)
    decreases value
  {
    if !value.Container() {
      return value;
    }
    if depth > MAX_DEPTH {
      return TRUNCATED;
    }
    if value.Arr? {
      var kept := Slice(value.items);
      var items: seq<Json> := [];
      for i := 0 to |kept|
        invariant |items| == i && forall k | 0 <= k < i :: items[k] == Sanitize(value.items[k], depth + 1)
      {
        var item := SanitizeValue(value.items[i], depth + 1);
        items := items + [item];
      }
      return Arr(items);
    }
    var sanitized: seq<Field> := [];
    for i := 0 to |value.fields|
      invariant |sanitized| == i && forall k | 0 <= k < i :: sanitized[k] == SanitizeField(value.fields[k], depth)
    {
      var field := value.fields[i];
      if Sensitive(field.key) {
        sanitized := sanitized + [Field(field.key, REDACTED)];
      } else {
        var entry := SanitizeValue(field.value, depth + 1);
        sanitized := sanitized + [Field(field.key, entry)];
      }
    }
    r := Obj(sanitized);
  }

  // ---- Positions in a tree ----

  function Children(v: Json): seq<Json> {
    match v
    case Arr(items) => items
    case Obj(fields) => seq(|fields|, i requires 0 <= i < |fields| => fields[i].value)
    case _ => []
  }

  predicate HasPath(v: Json, path: seq<nat>)
    decreases |path|
  {
    path == [] || (path[0] < |Children(v)| && HasPath(Children(v)[path[0]], path[1..]))
  }

  function At(v: Json, path: seq<nat>): Json
    requires HasPath(v, path)
    decreases |path|
  {
    if path == [] then v else At(Children(v)[path[0]], path[1..])
  }

  // ---- What the log may hold ----

  predicate Clean(v: Json, depth: nat)
    decreases v
  {
    match v
    case Arr(items) =>
      depth <= MAX_DEPTH && |items| <= MAX_ITEMS && forall i | 0 <= i < |items| :: Clean(items[i], depth + 1)
    case Obj(fields) =>
      depth <= MAX_DEPTH && forall i | 0 <= i < |fields| :: CleanField(fields[i], depth)
    case _ => true
  }

  predicate CleanField(f: Field, depth: nat)
    decreases f
  {
    if Sensitive(f.key) then f.value == REDACTED else Clean(f.value, depth + 1)
  }

  lemma {:induction false} SanitizedIsClean(v: Json, depth: nat)
    ensures Clean(Sanitize(v, depth), depth)
    decreases v
  {
    if v.Container() && depth <= MAX_DEPTH {
      if v.Arr? {
        forall i | 0 <= i < |Slice(v.items)| ensures Clean(Sanitize(v.items[i], depth + 1), depth + 1) {
          SanitizedIsClean(v.items[i], depth + 1);
        }
      } else {
        forall i | 0 <= i < |v.fields| ensures CleanField(SanitizeField(v.fields[i], depth), depth) {
          SanitizedIsClean(v.fields[i].value, depth + 1);
        }
      }
    }
  }

  /** Nothing but what must go is changed: a value comes through as it is exactly when it
      was clean. */
  lemma {:induction false} UnchangedIffClean(v: Json, depth: nat)
    ensures Sanitize(v, depth) == v <==> Clean(v, depth)
    decreases v
  {
    if Sanitize(v, depth) == v {
      SanitizedIsClean(v, depth);
    }
    if Clean(v, depth) {
      if v.Arr? {
        forall i | 0 <= i < |v.items| ensures Sanitize(v.items[i], depth + 1) == v.items[i] {
          UnchangedIffClean(v.items[i], depth + 1);
        }
        assert Sanitize(v, depth).items == v.items;
      } else if v.Obj? {
        forall i | 0 <= i < |v.fields| ensures SanitizeField(v.fields[i], depth) == v.fields[i] {
          assert CleanField(v.fields[i], depth);
          UnchangedIffClean(v.fields[i].value, depth + 1);
        }
        assert Sanitize(v, depth).fields == v.fields;
      }
    }
  }

  lemma SanitizeTwice(v: Json, depth: nat)
    ensures Sanitize(Sanitize(v, depth), depth) == Sanitize(v, depth)
  {
    SanitizedIsClean(v, depth);
    UnchangedIffClean(Sanitize(v, depth), depth);
  }

  /** A path that redaction leaves open: no sensitive key, no cut-off entry, not too deep. */
  predicate Open(v: Json, depth: nat, path: seq<nat>)
    requires HasPath(v, path)
    decreases |path|
  {
    path == [] ||
    (depth <= 3
     && (v.Arr? ==> path[0] < 50)
     && (v.Obj? ==> !Sensitive(v.fields[path[0]].key))
     && Open(Children(v)[path[0]], depth + 1, path[1..]))
  }

  /** Everything an open path leads to is still there, itself sanitized; scalars are kept
      as they are, and objects keep their keys. */
  lemma {:induction false} OpenPathsSurvive(v: Json, depth: nat, path: seq<nat>)
    requires HasPath(v, path) && Open(v, depth, path)
    ensures var r := Sanitize(v, depth);
      HasPath(r, path) && At(r, path) == Sanitize(At(v, path), depth + |path|)
    decreases |path|
  {
    if path != [] {
      var r, i := Sanitize(v, depth), path[0];
      OpenPathsSurvive(Children(v)[i], depth + 1, path[1..]);
      if v.Obj? {
        assert r.fields[i] == SanitizeField(v.fields[i], depth);
      } else {
        assert r.items[i] == Sanitize(v.items[i], depth + 1);
      }
      assert Children(r)[i] == Sanitize(Children(v)[i], depth + 1);
    }
  }

  /** What an open path leads to, node by node: scalars as they were, containers up to three
      levels down with their keys and their first entries, deeper ones marked. */
  lemma {:induction false} OpenNodes(v: Json, path: seq<nat>)
    requires HasPath(v, path) && Open(v, 0, path)
    ensures HasPath(Sanitize(v, 0), path)
    ensures var w, r := At(v, path), At(Sanitize(v, 0), path);
      && (!w.Container() ==> r == w)
      && (w.Container() && |path| > 3 ==> r == Text("[TRUNCATED: too deep]"))
      && (w.Arr? && |path| <= 3 ==> r.Arr? && |r.items| == if |w.items| <= 50 then |w.items| else 50)
      && (w.Obj? && |path| <= 3 ==>
            && r.Obj? && |r.fields| == |w.fields|
            && forall i | 0 <= i < |w.fields| ::
                 && r.fields[i].key == w.fields[i].key
                 && (Sensitive(w.fields[i].key) ==> r.fields[i].value == Text("[REDACTED]")))
  {
    OpenPathsSurvive(v, 0, path);
  }

  predicate SafeNode(v: Json) {
    && (v.Arr? ==> |v.items| <= 50)
    && (v.Obj? ==> forall f <- v.fields :: Sensitive(f.key) ==> f.value == Text("[REDACTED]"))
  }

  lemma {:induction false} CleanEverywhere(v: Json, depth: nat, path: seq<nat>)
    requires Clean(v, depth) && HasPath(v, path)
    ensures SafeNode(At(v, path)) && (At(v, path).Container() ==> depth + |path| <= MAX_DEPTH)
    decreases |path|
  {
    if path == [] {
      if v.Obj? {
        forall f <- v.fields | Sensitive(f.key) ensures f.value == REDACTED {
          assert CleanField(f, depth);
        }
      }
    } else {
      var i := path[0];
      var child := Children(v)[i];
      if v.Obj? {
        assert CleanField(v.fields[i], depth);
      }
      assert Clean(child, depth + 1);
      CleanEverywhere(child, depth + 1, path[1..]);
    }
  }

  /** Wherever one looks in a sanitized body: sensitive keys hold the mark, arrays hold at
      most 50 entries, and a container has at most 3 containers around it. */
  lemma {:induction false} SanitizedEverywhere(v: Json, path: seq<nat>)
    requires HasPath(Sanitize(v, 0), path)
    ensures var w := At(Sanitize(v, 0), path); SafeNode(w) && (w.Container() ==> |path| <= 3)
  {
    SanitizedIsClean(v, 0);
    CleanEverywhere(Sanitize(v, 0), 0, path);
  }
}
