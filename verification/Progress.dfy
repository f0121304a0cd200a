/** The semantic progress fingerprint of an execution body: its stable projection. */
module Progress {
  import opened Common

  datatype Json =
    | Null
    | Bool(b: bool)
    | Num(n: real, spelling: string)   // how the number is written out again: `1` and `1.0` are different values
    | Str(s: string)
    | List(items: seq<Json>)
    | Obj(fields: map<string, Json>)

  const VOLATILE_KEYS: set<string> := {
    "created_at", "updated_at", "timestamp", "last_heartbeat", "heartbeat_at",
    "elapsed", "elapsed_s", "duration", "duration_ms"
  }

  function LowerChar(c: char): char {
    if 'A' <= c <= 'Z' then ((c as int) + 32) as char else c
  }

  function Lower(s: string): (r: string)
    ensures |r| == |s|
  {
    seq(|s|, i requires 0 <= i < |s| => LowerChar(s[i]))
  }

  predicate Volatile(key: string) {
    Lower(key) in VOLATILE_KEYS
  }

  /** What the watchdog compares: the body without its volatile keys, at every depth. */
  function Stable(v: Json): Json {
    match v
    case List(items) => List(seq(|items|, i requires 0 <= i < |items| => Stable(items[i])))
    case Obj(fields) => Obj(map k | k in fields && !Volatile(k) :: Stable(fields[k]))
    case _ => v
  }

  /** `b` is `a` with volatile keys added, removed or altered, at any depth and nothing else changed. */
  ghost predicate SameButVolatile(a: Json, b: Json) {
    match (a, b)
    case (List(xs), List(ys)) => |xs| == |ys| && forall i :: 0 <= i < |xs| ==> SameButVolatile(xs[i], ys[i])
    case (Obj(f), Obj(g)) =>
      && (forall k :: !Volatile(k) ==> (k in f <==> k in g))
      && (forall k :: k in f && k in g && !Volatile(k) ==> SameButVolatile(f[k], g[k]))
    case _ => a == b
  }

  /** No volatile key is left anywhere. */
  ghost predicate Settled(v: Json) {
    match v
    case List(items) => forall i :: 0 <= i < |items| ==> Settled(items[i])
    case Obj(fields) => forall k :: k in fields ==> !Volatile(k) && Settled(fields[k])
    case _ => true
  }

  lemma {:induction false} StableSettles(v: Json)
    ensures Settled(Stable(v))
  {
    match v
    case List(items) =>
      forall i | 0 <= i < |items| ensures Settled(Stable(items[i])) {
        StableSettles(items[i]);
      }
    case Obj(fields) =>
      forall k | k in fields ensures Settled(Stable(fields[k])) {
        StableSettles(fields[k]);
      }
    case _ =>
  }

  lemma {:induction false} SettledIsFixpoint(v: Json)
    requires Settled(v)
    ensures Stable(v) == v
  {
    match v
    case List(items) =>
      forall i | 0 <= i < |items| ensures Stable(items[i]) == items[i] {
        SettledIsFixpoint(items[i]);
      }
    case Obj(fields) =>
      forall k | k in fields ensures Stable(fields[k]) == fields[k] {
        SettledIsFixpoint(fields[k]);
      }
    case _ =>
  }

  /** Projecting twice is projecting once. */
  lemma StableIdempotent(v: Json)
    ensures Stable(Stable(v)) == Stable(v)
  {
    StableSettles(v);
    SettledIsFixpoint(Stable(v));
  }

  /** Two bodies have the same projection exactly when they differ in volatile keys only. */
  lemma {:induction false} StableIffSameButVolatile(a: Json, b: Json)
    ensures Stable(a) == Stable(b) <==> SameButVolatile(a, b)
  {
    match (a, b)
    case (List(xs), List(ys)) =>
      if |xs| == |ys| {
        forall i | 0 <= i < |xs| ensures Stable(xs[i]) == Stable(ys[i]) <==> SameButVolatile(xs[i], ys[i]) {
          StableIffSameButVolatile(xs[i], ys[i]);
        }
        var p, q := Stable(a).items, Stable(b).items;
        assert forall i :: 0 <= i < |xs| ==> p[i] == Stable(xs[i]) && q[i] == Stable(ys[i]);
        assert p == q <==> forall i :: 0 <= i < |xs| ==> p[i] == q[i];
      } else {
        assert |Stable(a).items| != |Stable(b).items|;
      }
    case (Obj(f), Obj(g)) =>
      forall k | k in f && k in g ensures Stable(f[k]) == Stable(g[k]) <==> SameButVolatile(f[k], g[k]) {
        StableIffSameButVolatile(f[k], g[k]);
      }
      var p, q := Stable(a).fields, Stable(b).fields;
      assert forall k :: k in p <==> k in f && !Volatile(k);
      assert forall k :: k in q <==> k in g && !Volatile(k);
      if p == q {
        forall k | !Volatile(k) ensures k in f <==> k in g {
          assert k in p <==> k in q;
        }
        forall k | k in f && k in g && !Volatile(k) ensures SameButVolatile(f[k], g[k]) {
          assert k in p && p[k] == q[k];
        }
      }
      if SameButVolatile(a, b) {
        forall k | k in p ensures k in q && p[k] == q[k] {
        }
        assert p.Keys == q.Keys;
        assert p == q;
      }
    case _ =>
  }

  // -- reading a body the way the orchestrator does -----------------------------

  function Get(body: map<string, Json>, key: string): Json {
    if key in body then body[key] else Null
  }

  predicate Truthy(v: Json) {
    match v
    case Null => false
    case Bool(b) => b
    case Num(n, _) => n != 0.0
    case Str(s) => s != ""
    case List(items) => items != []
    case Obj(fields) => fields != map[]
  }

  /** Values that count as missing. */
  predicate Nothing(v: Json) {
    v in {Null, Bool(false), Str(""), List([]), Obj(map[])} || (v.Num? && v.n == 0.0)
  }

  lemma TruthyIff()
    ensures forall v :: Truthy(v) <==> !Nothing(v)
  {
  }

  function Or(a: Json, b: Json): Json {
    if Truthy(a) then a else b
  }

  /** `str(value)` for text, numbers and plain constants; lists and objects render to a fixed placeholder. */
  function Text(v: Json): string {
    match v
    case Str(s) => s
    case Null => "None"
    case Bool(b) => if b then "True" else "False"
    case Num(_, spelling) => spelling
    case _ => "<value>"
  }

  function Clip(s: string, n: nat): (r: string)
    ensures r <= s && |r| == Min(|s|, n)
  {
    if |s| <= n then s else s[..n]
  }

  predicate OccursAt(s: string, i: int, part: string) {
    0 <= i && i + |part| <= |s| && s[i..i + |part|] == part
  }

  /** `part` occurs in `s`. */
  predicate Contains(s: string, part: string) {
    exists i | 0 <= i <= |s| :: OccursAt(s, i, part)
  }

  /** The phrase stands somewhere in the text. */
  ghost predicate Mentions(text: string, phrase: string) {
    exists before: string, after: string :: text == before + phrase + after
  }

  lemma ContainsIff(s: string, part: string)
    ensures Contains(s, part) <==> Mentions(s, part)
  {
    if i :| 0 <= i <= |s| && OccursAt(s, i, part) {
      assert s == s[..i] + part + s[i + |part|..];
    }
    if before: string, after: string :| s == before + part + after {
      assert OccursAt(s, |before|, part);
    }
  }

  /** Two characters that differ at most in case. */
  predicate SameLetter(a: char, b: char) {
    a == b || ('A' <= a <= 'Z' && b as int == a as int + 32) || ('A' <= b <= 'Z' && a as int == b as int + 32)
  }

  /** Lowering forgets exactly the case of letters. */
  lemma SameLoweredIff(s: string, t: string)
    ensures Lower(s) == Lower(t) <==> |s| == |t| && forall i :: 0 <= i < |s| ==> SameLetter(s[i], t[i])
  {
    var a, b := Lower(s), Lower(t);
    assert forall i :: 0 <= i < |s| ==> a[i] == LowerChar(s[i]);
    assert forall i :: 0 <= i < |t| ==> b[i] == LowerChar(t[i]);
    assert forall x: char, y: char :: LowerChar(x) == LowerChar(y) <==> SameLetter(x, y);
    if |s| == |t| && forall i :: 0 <= i < |s| ==> SameLetter(s[i], t[i]) {
      assert a == b;
    }
  }

  /** Which keys are noise: replacing one value of a body leaves its projection alone exactly when the key, in whatever
      case, is one of these nine, or the values have the same projection. */
  lemma NoiseIff(body: map<string, Json>, key: string, value: Json)
    requires key in body
    ensures Stable(Obj(body[key := value])) == Stable(Obj(body)) <==>
            || Lower(key) in {"created_at", "updated_at", "timestamp", "last_heartbeat", "heartbeat_at",
                              "elapsed", "elapsed_s", "duration", "duration_ms"}
            || Stable(value) == Stable(body[key])
  {
    hide Lower;
    var changed := body[key := value];
    var p, q := Stable(Obj(changed)).fields, Stable(Obj(body)).fields;
    assert p.Keys == q.Keys;
    assert forall k :: k in q && k != key ==> p[k] == q[k];
    if !Volatile(key) {
      assert p[key] == Stable(value) && q[key] == Stable(body[key]);
    } else {
      assert p == q;
    }
    if Stable(value) == Stable(body[key]) {
      assert p == q;
    }
  }
}
