/**
 * The shape of an operation's document: which nodes its setters write
 * through (and so must be arrays) and which are leaves they only replace.
 */
module Schema {
  import opened Json

  /**
   * `Object(children)` is a string-keyed array whose listed children have the
   * given shapes (unlisted keys are leaves); `Array(element)` is a list whose
   * every element has the shape; `AnyValue` is a leaf, never written through.
   */
  datatype Shape = AnyValue | Object(children: map<string, Shape>) | Array(element: Shape)

  predicate Conforms(d: Json, s: Shape)
    decreases s
  {
    match s
    case AnyValue => true
    case Object(cs) => d.JObj? && forall k :: k in cs && k in d.fields ==> Conforms(d.fields[k], cs[k])
    case Array(e) => d.JArr? && forall i :: 0 <= i < |d.items| ==> Conforms(d.items[i], e)
  }

  /** `p` is a write path the schema provides for: it descends through containers only. */
  predicate Follows(s: Shape, p: Path)
    decreases |p|
  {
    p == [] ||
    match p[0]
    case Key(k) => s.Object? && (if k in s.children then Follows(s.children[k], p[1..]) else |p| == 1)
    case _ => s.Array? && Follows(s.element, p[1..])
  }

  /** The shape a value written at `p` must have. */
  function ShapeAt(s: Shape, p: Path): Shape
    requires Follows(s, p)
    decreases |p|
  {
    if p == [] then s
    else match p[0]
      case Key(k) => if k in s.children then ShapeAt(s.children[k], p[1..]) else AnyValue
      case _ => ShapeAt(s.element, p[1..])
  }

  /**
   * Writing along `p` in `d` only indexes into arrays of the kind each segment
   * needs (or into a missing or null node, which PHP creates). This rules out
   * the three writes where `Set` and PHP part: through `true`, a number or a
   * string (PHP throws, or writes one character of the string), a key on a
   * list, and `[0]` or `[]` on a map. It also rules out `false`, which PHP 8
   * turns into an array just as `Set` does (`Json.FalseBecomesArray`).
   */
  predicate Fits(d: Json, p: Path)
    decreases |p|
  {
    p == [] || d.JNull? ||
    match p[0]
    case Key(k) => d.JObj? && (k in d.fields ==> Fits(d.fields[k], p[1..]))
    case First => d.JArr? && (|d.items| > 0 ==> Fits(d.items[0], p[1..]))
    case Append => d.JArr?
  }

  /** A document that conforms to its schema accepts every write the schema provides for. */
  lemma {:induction false} ConformsFits(d: Json, s: Shape, p: Path)
    requires d.JNull? || Conforms(d, s)
    requires Follows(s, p)
    ensures Fits(d, p)
    decreases |p|
  {
    if p != [] && !d.JNull? {
      match p[0]
      case Key(k) =>
        if k in d.fields && k in s.children {
          ConformsFits(d.fields[k], s.children[k], p[1..]);
        }
      case First =>
        if |d.items| > 0 {
          ConformsFits(d.items[0], s.element, p[1..]);
        }
      case Append =>
    }
  }

  /** A write the schema provides for, of a value of the right shape, keeps the document conforming. */
  lemma {:induction false} SetConforms(d: Json, s: Shape, p: Path, v: Json)
    requires d.JNull? || Conforms(d, s)
    requires Follows(s, p)
    requires Conforms(v, ShapeAt(s, p))
    ensures Conforms(Set(d, p, v), s)
    decreases |p|
  {
    if p != [] {
      match p[0]
      case Key(k) =>
        var m := if d.JObj? then d.fields else map[];
        var child := if k in m then m[k] else JNull;
        if k in s.children {
          SetConforms(child, s.children[k], p[1..], v);
        }
        var r := Set(d, p, v);
        assert r.fields == m[k := Set(child, p[1..], v)];
      case First =>
        var xs := if d.JArr? then d.items else [];
        SetConforms(if |xs| > 0 then xs[0] else JNull, s.element, p[1..], v);
      case Append =>
        var xs := if d.JArr? then d.items else [];
        SetConforms(JNull, s.element, p[1..], v);
        var r := Set(d, p, v);
        assert r.items == xs + [Set(JNull, p[1..], v)];
        assert forall i :: 0 <= i < |xs| ==> r.items[i] == xs[i];
    }
  }

  /**
   * A write `$d[p...] = v`, on a conforming document:
   * PHP accepts it, the result still conforms, and only `p` changed.
   */
  lemma SchemaWrite(d: Json, s: Shape, p: Path, v: Json)
    requires Conforms(d, s) && Readable(p) && Follows(s, p) && Conforms(v, ShapeAt(s, p))
    ensures Fits(d, p) && Conforms(Set(d, p, v), s) && Assigned(d, Set(d, p, v), p, v)
  {
    ConformsFits(d, s, p);
    SetConforms(d, s, p, v);
    SetAssigns(d, p, v);
  }

  /** An append `$d[p...][] = v`, on a conforming document. */
  lemma SchemaAppend(d: Json, s: Shape, p: Path, v: Json)
    requires Conforms(d, s) && Readable(p) && Follows(s, p + [Append]) && Conforms(v, ShapeAt(s, p + [Append]))
    ensures Fits(d, p + [Append]) && Conforms(Set(d, p + [Append], v), s) && Appended(d, Set(d, p + [Append], v), p, v)
  {
    ConformsFits(d, s, p + [Append]);
    SetConforms(d, s, p + [Append], v);
    SetAppends(d, p, v);
  }
}
