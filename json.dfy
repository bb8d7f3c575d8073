/**
 * The payload document every builder accumulates: a PHP array tree as it is
 * sent to the carrier in JSON form, with generic reads and writes along a path.
 *
 * A setter such as `$this->data['content']['exportDeclaration']['lineItems'][] = $item`
 * is a write along the path Key("content"), Key("exportDeclaration"),
 * Key("lineItems"), Append; `[0]` is the segment First.
 */
module Json {
  import opened Wrappers
  import Calendar

  /** A PHP float, kept as its IEEE-754 bit pattern: no builder computes with one. */
  datatype Float = Float(bits: bv64)

  datatype Json =
    | JNull
    | JBool(b: bool)
    | JInt(i: int)
    | JFloat(f: Float)
    | JStr(s: string)
    | JArr(items: seq<Json>)
    | JObj(fields: map<string, Json>)

  datatype Seg = Key(name: string) | First | Append

  type Path = seq<Seg>

  /** A path that names an existing node: `[]` (append) only makes sense in a write. */
  predicate Readable(p: Path) {
    forall i :: 0 <= i < |p| ==> !p[i].Append?
  }

  /** The node at `p`, if there is one. */
  function Get(d: Json, p: Path): Option<Json>
    decreases |p|
  {
    if p == [] then Some(d)
    else match p[0]
      case Key(k) => if d.JObj? && k in d.fields then Get(d.fields[k], p[1..]) else None
      case First => if d.JArr? && |d.items| > 0 then Get(d.items[0], p[1..]) else None
      case Append => None
  }

  /**
   * PHP's `$d[...] = v` along `p`. A missing or null node on the way is
   * created as an empty array, as PHP does; `[0]` on an empty list creates
   * element 0, and `[]` appends after the last element.
   */
  function Set(d: Json, p: Path, v: Json): Json
    decreases |p|
  {
    if p == [] then v
    else match p[0]
      case Key(k) =>
        var m: map<string, Json> := if d.JObj? then d.fields else map[];
        var child := if k in m then m[k] else JNull;
        JObj(m[k := Set(child, p[1..], v)])
      case First =>
        var s: seq<Json> := if d.JArr? then d.items else [];
        if |s| > 0 then JArr(s[0 := Set(s[0], p[1..], v)])
        else JArr([Set(JNull, p[1..], v)])
      case Append =>
        var s: seq<Json> := if d.JArr? then d.items else [];
        JArr(s + [Set(JNull, p[1..], v)])
  }

  /** Writing a key into `false` makes it an array holding that key alone, as PHP 8 does. */
  lemma FalseBecomesArray(k: string, v: Json)
    ensures Set(JBool(false), [Key(k)], v) == JObj(map[k := v])
  {
    assert [Key(k)][1..] == [];
  }

  /** The list at `p`, or the empty list where there is none (PHP's `$d[...] ?? []`). */
  function Elements(d: Json, p: Path): (r: seq<Json>)
    ensures Get(d, p) == Some(JArr(r)) || (r == [] && (Get(d, p).None? || !Get(d, p).value.JArr?))
  {
    match Get(d, p)
    case Some(JArr(s)) => s
    case _ => []
  }

  /** Two paths that part at a pair of different keys: writing one never touches the other. */
  predicate Diverge(p: Path, q: Path)
    decreases |p|
  {
    |p| > 0 && |q| > 0 &&
    if p[0] == q[0] then Diverge(p[1..], q[1..]) else p[0].Key? && q[0].Key?
  }

  /** Writing `v` at `p` leaves `v` at `p` and every diverging path as it was. */
  ghost predicate Assigned(before: Json, after: Json, p: Path, v: Json) {
    && after == Set(before, p, v)
    && Get(after, p) == Some(v)
    && forall q :: Diverge(p, q) ==> Get(after, q) == Get(before, q)
  }

  /** Appending `v` to the list at `p` grows that list by `v` and leaves every diverging path as it was. */
  ghost predicate Appended(before: Json, after: Json, p: Path, v: Json) {
    && after == Set(before, p + [Append], v)
    && Elements(after, p) == Elements(before, p) + [v]
    && forall q :: Diverge(p, q) ==> Get(after, q) == Get(before, q)
  }

  /** Two writes in a row, `v` at `p` then `w` at `q`, on paths that part: both values stay, all else is kept. */
  ghost predicate AssignedBoth(before: Json, after: Json, p: Path, v: Json, q: Path, w: Json) {
    && after == Set(Set(before, p, v), q, w)
    && Get(after, p) == Some(v)
    && Get(after, q) == Some(w)
    && forall r :: Diverge(p, r) && Diverge(q, r) ==> Get(after, r) == Get(before, r)
  }

  /** Two assignments on parting paths compose to an `AssignedBoth`. */
  lemma AssignTwice(d0: Json, d1: Json, d2: Json, p: Path, v: Json, q: Path, w: Json)
    requires Assigned(d0, d1, p, v) && Assigned(d1, d2, q, w) && Diverge(q, p)
    ensures AssignedBoth(d0, d2, p, v, q, w)
  {
  }

  lemma {:induction false} GetSet(d: Json, p: Path, v: Json)
    requires Readable(p)
    ensures Get(Set(d, p, v), p) == Some(v)
    decreases |p|
  {
    if p != [] {
      assert Readable(p[1..]) by {
        forall i | 0 <= i < |p[1..]| ensures !p[1..][i].Append? { assert p[1..][i] == p[i + 1]; }
      }
      match p[0]
      case Key(k) =>
        var m: map<string, Json> := if d.JObj? then d.fields else map[];
        GetSet(if k in m then m[k] else JNull, p[1..], v);
      case First =>
        var s: seq<Json> := if d.JArr? then d.items else [];
        GetSet(if |s| > 0 then s[0] else JNull, p[1..], v);
      case Append =>
        assert false;
    }
  }

  lemma {:induction false} GetSetOther(d: Json, p: Path, q: Path, v: Json)
    requires Diverge(p, q)
    ensures Get(Set(d, p, v), q) == Get(d, q)
    decreases |p|
  {
    if p[0] == q[0] {
      match p[0]
      case Key(k) =>
        var m: map<string, Json> := if d.JObj? then d.fields else map[];
        GetSetOther(if k in m then m[k] else JNull, p[1..], q[1..], v);
      case First =>
        var s: seq<Json> := if d.JArr? then d.items else [];
        GetSetOther(if |s| > 0 then s[0] else JNull, p[1..], q[1..], v);
      case Append =>
    }
  }

  lemma {:induction false} GetSetBelow(d: Json, p: Path, r: Path, v: Json)
    requires Readable(p)
    ensures Get(Set(d, p, v), p + r) == Get(v, r)
    decreases |p|
  {
    if p == [] {
      assert p + r == r;
    } else {
      assert (p + r)[0] == p[0] && (p + r)[1..] == p[1..] + r;
      assert Readable(p[1..]) by {
        forall i | 0 <= i < |p[1..]| ensures !p[1..][i].Append? { assert p[1..][i] == p[i + 1]; }
      }
      match p[0]
      case Key(k) =>
        var m: map<string, Json> := if d.JObj? then d.fields else map[];
        GetSetBelow(if k in m then m[k] else JNull, p[1..], r, v);
      case First =>
        var s: seq<Json> := if d.JArr? then d.items else [];
        GetSetBelow(if |s| > 0 then s[0] else JNull, p[1..], r, v);
      case Append =>
        assert false;
    }
  }

  /** Getting the node at the end of `p` after `[]` was written there. */
  lemma {:induction false} GetSetAppend(d: Json, p: Path, v: Json)
    requires Readable(p)
    ensures Get(Set(d, p + [Append], v), p) == Some(JArr(Elements(d, p) + [v]))
    decreases |p|
  {
    if p == [] {
      assert p + [Append] == [Append];
    } else {
      assert (p + [Append])[0] == p[0] && (p + [Append])[1..] == p[1..] + [Append];
      assert Readable(p[1..]) by {
        forall i | 0 <= i < |p[1..]| ensures !p[1..][i].Append? { assert p[1..][i] == p[i + 1]; }
      }
      match p[0]
      case Key(k) =>
        var m: map<string, Json> := if d.JObj? then d.fields else map[];
        var child := if k in m then m[k] else JNull;
        GetSetAppend(child, p[1..], v);
        assert Elements(child, p[1..]) == Elements(d, p);
      case First =>
        var s: seq<Json> := if d.JArr? then d.items else [];
        var child := if |s| > 0 then s[0] else JNull;
        GetSetAppend(child, p[1..], v);
        assert Elements(child, p[1..]) == Elements(d, p);
      case Append =>
        assert false;
    }
  }

  lemma {:induction false} DivergeExtend(p: Path, q: Path, r: Path)
    requires Diverge(p, q)
    ensures Diverge(p + r, q)
    decreases |p|
  {
    assert (p + r)[0] == p[0] && (p + r)[1..] == p[1..] + r;
    if p[0] == q[0] {
      DivergeExtend(p[1..], q[1..], r);
    }
  }

  /** What a single path write guarantees. */
  lemma SetAssigns(d: Json, p: Path, v: Json)
    requires Readable(p)
    ensures Assigned(d, Set(d, p, v), p, v)
  {
    GetSet(d, p, v);
    forall q | Diverge(p, q) ensures Get(Set(d, p, v), q) == Get(d, q) {
      GetSetOther(d, p, q, v);
    }
  }

  /** What an append to a list path (`lineItems[]`, `packages[]`) guarantees. */
  lemma SetAppends(d: Json, p: Path, v: Json)
    requires Readable(p)
    ensures Appended(d, Set(d, p + [Append], v), p, v)
  {
    GetSetAppend(d, p, v);
    forall q | Diverge(p, q) ensures Get(Set(d, p + [Append], v), q) == Get(d, q) {
      DivergeExtend(p, q, [Append]);
      GetSetOther(d, p + [Append], q, v);
    }
  }

  /** Appending `vs` to the list at `p` one at a time, as repeated calls of an appending setter do. */
  function AppendEach(d: Json, p: Path, vs: seq<Json>): Json
    decreases |vs|
  {
    if vs == [] then d else AppendEach(Set(d, p + [Append], vs[0]), p, vs[1..])
  }

  /** n appends leave n more elements, in call order, after the ones already there. */
  lemma {:induction false} AppendEachInOrder(d: Json, p: Path, vs: seq<Json>)
    requires Readable(p)
    ensures Elements(AppendEach(d, p, vs), p) == Elements(d, p) + vs
    decreases |vs|
  {
    if vs != [] {
      SetAppends(d, p, vs[0]);
      AppendEachInOrder(Set(d, p + [Append], vs[0]), p, vs[1..]);
      assert Elements(d, p) + [vs[0]] + vs[1..] == Elements(d, p) + vs;
    }
  }

  /** The second update of a key wins; used by `SetTwice` and `CommuteBelowKey`. */
  lemma MapUpdateTwice(m: map<string, Json>, k: string, a: Json, b: Json)
    ensures m[k := a][k := b] == m[k := b]
  {
  }

  /** Updates of two different keys commute; used by `CommuteAtRoot`. */
  lemma MapUpdateSwap(m: map<string, Json>, k: string, a: Json, j: string, b: Json)
    requires k != j
    ensures m[k := a][j := b] == m[j := b][k := a]
  {
  }

  /** A second write to the same path replaces the first: the last call wins. */
  lemma {:induction false} SetTwice(d: Json, p: Path, v: Json, w: Json)
    requires Readable(p)
    ensures Set(Set(d, p, v), p, w) == Set(d, p, w)
    decreases |p|
  {
    if p != [] {
      var rest := p[1..];
      assert Readable(rest) by {
        forall i | 0 <= i < |rest| ensures !rest[i].Append? { assert rest[i] == p[i + 1]; }
      }
      var once := Set(d, p, v);
      match p[0]
      case Key(k) =>
        var m: map<string, Json> := if d.JObj? then d.fields else map[];
        var child := if k in m then m[k] else JNull;
        assert once == JObj(m[k := Set(child, rest, v)]);
        SetTwice(child, rest, v, w);
        calc {
          Set(once, p, w);
          JObj(m[k := Set(child, rest, v)][k := Set(Set(child, rest, v), rest, w)]);
          { MapUpdateTwice(m, k, Set(child, rest, v), Set(child, rest, w)); }
          JObj(m[k := Set(child, rest, w)]);
          Set(d, p, w);
        }
      case First =>
        var s: seq<Json> := if d.JArr? then d.items else [];
        var child := if |s| > 0 then s[0] else JNull;
        SetTwice(child, rest, v, w);
        if |s| > 0 {
          assert once == JArr(s[0 := Set(child, rest, v)]);
          assert Set(once, p, w) == JArr(s[0 := Set(child, rest, v)][0 := Set(Set(child, rest, v), rest, w)]);
          assert s[0 := Set(child, rest, v)][0 := Set(child, rest, w)] == s[0 := Set(child, rest, w)];
        } else {
          assert once == JArr([Set(child, rest, v)]);
          assert Set(once, p, w) == JArr([Set(child, rest, v)][0 := Set(Set(child, rest, v), rest, w)]);
        }
      case Append =>
        assert false;
    }
  }

  /** Writes to diverging paths commute: setters of different keys may be called in either order. */
  lemma {:induction false} SetCommute(d: Json, p: Path, q: Path, v: Json, w: Json)
    requires Readable(p) && Readable(q) && Diverge(p, q)
    ensures Set(Set(d, p, v), q, w) == Set(Set(d, q, w), p, v)
    decreases |p|
  {
    var pr, qr := p[1..], q[1..];
    assert Readable(pr) by {
      forall i | 0 <= i < |pr| ensures !pr[i].Append? { assert pr[i] == p[i + 1]; }
    }
    assert Readable(qr) by {
      forall i | 0 <= i < |qr| ensures !qr[i].Append? { assert qr[i] == q[i + 1]; }
    }
    if p[0] != q[0] {
      CommuteAtRoot(d, p, q, v, w);
    } else if p[0].Key? {
      var m: map<string, Json> := if d.JObj? then d.fields else map[];
      var child := if p[0].name in m then m[p[0].name] else JNull;
      SetCommute(child, pr, qr, v, w);
      CommuteBelowKey(d, p, q, v, w);
    } else {
      var s: seq<Json> := if d.JArr? then d.items else [];
      var child := if |s| > 0 then s[0] else JNull;
      SetCommute(child, pr, qr, v, w);
      CommuteBelowFirst(d, p, q, v, w);
    }
  }

  /** One step of a write below a key. */
  lemma SetThroughKey(d: Json, p: Path, v: Json)
    requires |p| > 0 && p[0].Key?
    ensures
      var m: map<string, Json> := if d.JObj? then d.fields else map[];
      var k := p[0].name;
      Set(d, p, v) == JObj(m[k := Set(if k in m then m[k] else JNull, p[1..], v)])
  {
  }

  lemma CommuteAtRoot(d: Json, p: Path, q: Path, v: Json, w: Json)
    requires |p| > 0 && |q| > 0 && p[0].Key? && q[0].Key? && p[0] != q[0]
    ensures Set(Set(d, p, v), q, w) == Set(Set(d, q, w), p, v)
  {
    var k, j := p[0].name, q[0].name;
    var m: map<string, Json> := if d.JObj? then d.fields else map[];
    var ck := if k in m then m[k] else JNull;
    var cj := if j in m then m[j] else JNull;
    var a, b := Set(ck, p[1..], v), Set(cj, q[1..], w);
    var dp, dq := JObj(m[k := a]), JObj(m[j := b]);
    SetThroughKey(d, p, v);
    SetThroughKey(d, q, w);
    SetThroughKey(dp, q, w);
    SetThroughKey(dq, p, v);
    assert (if j in dp.fields then dp.fields[j] else JNull) == cj;
    assert (if k in dq.fields then dq.fields[k] else JNull) == ck;
    MapUpdateSwap(m, k, a, j, b);
  }

  lemma CommuteBelowKey(d: Json, p: Path, q: Path, v: Json, w: Json)
    requires |p| > 0 && |q| > 0 && p[0].Key? && p[0] == q[0]
    requires
      var m: map<string, Json> := if d.JObj? then d.fields else map[];
      var child := if p[0].name in m then m[p[0].name] else JNull;
      Set(Set(child, p[1..], v), q[1..], w) == Set(Set(child, q[1..], w), p[1..], v)
    ensures Set(Set(d, p, v), q, w) == Set(Set(d, q, w), p, v)
  {
    var k := p[0].name;
    var m: map<string, Json> := if d.JObj? then d.fields else map[];
    var child := if k in m then m[k] else JNull;
    var a, b := Set(child, p[1..], v), Set(child, q[1..], w);
    assert Set(d, p, v) == JObj(m[k := a]);
    assert Set(d, q, w) == JObj(m[k := b]);
    assert Set(Set(d, p, v), q, w) == JObj(m[k := a][k := Set(a, q[1..], w)]);
    assert Set(Set(d, q, w), p, v) == JObj(m[k := b][k := Set(b, p[1..], v)]);
    MapUpdateTwice(m, k, a, Set(a, q[1..], w));
    MapUpdateTwice(m, k, b, Set(b, p[1..], v));
  }

  lemma CommuteBelowFirst(d: Json, p: Path, q: Path, v: Json, w: Json)
    requires |p| > 0 && |q| > 0 && p[0].First? && q[0].First?
    requires
      var s: seq<Json> := if d.JArr? then d.items else [];
      var child := if |s| > 0 then s[0] else JNull;
      Set(Set(child, p[1..], v), q[1..], w) == Set(Set(child, q[1..], w), p[1..], v)
    ensures Set(Set(d, p, v), q, w) == Set(Set(d, q, w), p, v)
  {
    var s: seq<Json> := if d.JArr? then d.items else [];
    var child := if |s| > 0 then s[0] else JNull;
    var a, b := Set(child, p[1..], v), Set(child, q[1..], w);
    if |s| > 0 {
      assert Set(d, p, v) == JArr(s[0 := a]);
      assert Set(d, q, w) == JArr(s[0 := b]);
      assert Set(Set(d, p, v), q, w) == JArr(s[0 := a][0 := Set(a, q[1..], w)]);
      assert Set(Set(d, q, w), p, v) == JArr(s[0 := b][0 := Set(b, p[1..], v)]);
      assert s[0 := a][0 := Set(a, q[1..], w)] == s[0 := b][0 := Set(b, p[1..], v)];
    } else {
      assert Set(d, p, v) == JArr([a]);
      assert Set(d, q, w) == JArr([b]);
      assert Set(Set(d, p, v), q, w) == JArr([Set(a, q[1..], w)]);
      assert Set(Set(d, q, w), p, v) == JArr([Set(b, p[1..], v)]);
    }
  }

  /** A word of lower-case letters: never numeric, never "" or "0", and never the text of a float. */
  predicate Plain(w: string) {
    |w| > 0 && forall i :: 0 <= i < |w| ==> 'a' <= w[i] <= 'z'
  }

  /** A string without a decimal digit, which PHP 8 never reads as a number. */
  predicate NonNumeric(w: string) {
    forall i :: 0 <= i < |w| ==> !Calendar.IsDigit(w[i])
  }

  /** PHP's `(string)` of an int. */
  function IntText(i: int): string {
    if i < 0 then "-" + Calendar.Digits(-i) else Calendar.Digits(i)
  }

  /**
   * PHP's `(string)` of an infinite or NaN float. Every finite float's text
   * holds a digit, so only these can equal a string without one.
   */
  function SpecialFloatText(f: Float): Option<string> {
    var exponent := (f.bits >> 52) & 0x7FF;
    var fraction := f.bits & 0xF_FFFF_FFFF_FFFF;
    if exponent != 0x7FF then None
    else if fraction != 0 then Some("NAN")
    else if f.bits >> 63 == 1 then Some("-INF")
    else Some("INF")
  }

  /**
   * PHP 8's `$v == $w` for a string `$w` without digits: null compares as "",
   * a bool with the truth value of the string, a number through its own string
   * form, a string as text, and an array is never equal to a string.
   */
  predicate LooseEqualsWord(v: Json, w: string)
    requires NonNumeric(w)
  {
    match v
    case JNull => w == ""
    case JBool(b) => b == (w != "" && w != "0")
    case JInt(i) => IntText(i) == w
    case JFloat(f) => SpecialFloatText(f) == Some(w)
    case JStr(s) => s == w
    case JArr(_) => false
    case JObj(_) => false
  }

  /** Under PHP 8 the float INF is loosely equal to the string "INF". */
  lemma InfinityEqualsItsText()
    ensures NonNumeric("INF") && LooseEqualsWord(JFloat(Float(0x7FF0_0000_0000_0000)), "INF")
  {
  }

  /** On lower-case words, loose equality with some word comes down to a string in the set or `true`. */
  lemma LooseEqualsByKind(v: Json, words: set<string>)
    requires words != {} && forall w :: w in words ==> Plain(w)
    ensures (exists w :: w in words && NonNumeric(w) && LooseEqualsWord(v, w)) <==>
            (v.JStr? && v.s in words) || v == JBool(true)
  {
    forall w | w in words
      ensures NonNumeric(w)
      ensures LooseEqualsWord(v, w) <==> (v.JStr? && v.s == w) || v == JBool(true)
    {
      assert 'a' <= w[0] <= 'z';
      match v
      case JInt(i) =>
        var t := IntText(i);
        assert Calendar.IsDigit(t[|t| - 1]);
      case JFloat(f) =>
        var t := SpecialFloatText(f);
        assert t.Some? ==> t.value[0] == 'N' || t.value[0] == 'I' || t.value[0] == '-';
      case _ =>
    }
    if v == JBool(true) {
      var w :| w in words;
      assert LooseEqualsWord(v, w);
    }
  }

  /**
   * PHP's `in_array($v, $words)` with its default loose `==`, for words made
   * of lower-case letters (as every enumeration in the builders is).
   */
  predicate LooselyIn(v: Json, words: set<string>)
    requires words != {} && forall w :: w in words ==> Plain(w)
    ensures LooselyIn(v, words) <==> exists w :: w in words && NonNumeric(w) && LooseEqualsWord(v, w)
  {
    LooseEqualsByKind(v, words);
    match v
    case JStr(s) => s in words
    case JBool(b) => b
    case _ => false
  }
}
