/**
 * The `Icon` component's dispatch on its `name` prop: nothing for a falsy
 * name, a vector-icon glyph for a string (with an optional `set/` prefix),
 * and, in the branches after the string test, an image or a wrapper view.
 */
module Icon {
  import opened Js
  import opened Theme

  /** The icon set used when a string name carries no `set/` prefix. */
  const DefaultSet: string := "MaterialIcons"

  /**
   * The `name` prop, `string | { uri: string } | number | React.Node`, with the
   * JavaScript kinds that decide the dispatch: `indexOf` exists on strings and
   * arrays only, `split` on strings only.
   */
  datatype Source =
    | Undefined
    | Null
    | Str(s: string)
    | Number(n: int)               // an image asset id
    | Bool(b: bool)                // a boolean node
    | UriObject(uri: string)       // `{ uri }`
    | Element                      // a React element: an object without `uri` or `indexOf`
    | NodeArray(items: seq<Source>) // an array of nodes

  /**
   * JavaScript truthiness of a name (`NaN` is not modelled): the falsy names
   * are `undefined`, `null`, `""`, `0` and `false`.
   */
  predicate NameTruthy(name: Source)
    ensures !NameTruthy(name) <==>
              name == Undefined || name == Null || name == Str("") || name == Number(0) || name == Bool(false)
  {
    match name
    case Undefined => false
    case Null => false
    case Str(s) => s != ""
    case Number(n) => n != 0
    case Bool(b) => b
    case _ => true
  }

  /** What `Icon` renders. `TypeError` names the method that does not exist on the name. */
  datatype Rendered =
    | Nothing
    | Glyph(iconSet: string, glyph: string, color: Option<Color>, size: Option<real>)
    | Image(source: Source, width: Option<real>, height: Option<real>, tint: Option<Color>)
    | Wrapper(width: Option<real>, height: Option<real>, child: Source)
    | TypeError(missing: string)

  /** `s.indexOf(c)` for a one-character search string: the first position of `c`, or -1. */
  function IndexOf(s: string, c: char): (r: int)
    ensures -1 <= r < |s|
    ensures r == -1 <==> c !in s
    ensures 0 <= r ==> s[r] == c && c !in s[..r]
  {
    if |s| == 0 then -1
    else if s[0] == c then 0
    else
      var k := IndexOf(s[1..], c);
      if k == -1 then -1
      else
        assert s[..k + 1] == [s[0]] + s[1..][..k];
        k + 1
  }

  /** `s.split(c)` for a one-character separator: the pieces between the separators. */
  function Split(s: string, c: char): (parts: seq<string>)
    ensures |parts| >= 1
    ensures forall i :: 0 <= i < |parts| ==> c !in parts[i]
    decreases |s|
  {
    var k := IndexOf(s, c);
    if k == -1 then [s] else [s[..k]] + Split(s[k + 1..], c)
  }

  /** `parts.join(c)`: the inverse of `Split`. */
  function Join(parts: seq<string>, c: char): (s: string)
    requires |parts| >= 1
    decreases |parts|
  {
    if |parts| == 1 then parts[0] else parts[0] + [c] + Join(parts[1..], c)
  }

  /** Splitting loses nothing: joining the pieces gives the name back. */
  lemma {:induction false} JoinSplit(s: string, c: char)
    ensures Join(Split(s, c), c) == s
    decreases |s|
  {
    var k := IndexOf(s, c);
    if k != -1 {
      var rest := s[k + 1..];
      var tail := Split(rest, c);
      JoinSplit(rest, c);
      JoinCons(s[..k], tail, c);
      assert s == s[..k] + [c] + rest;
    }
  }

  /** Joining a piece in front of a non-empty list puts one separator between them. */
  lemma JoinCons(head: string, tail: seq<string>, c: char)
    requires |tail| >= 1
    ensures Join([head] + tail, c) == head + [c] + Join(tail, c)
  {
    assert ([head] + tail)[1..] == tail;
  }

  /** The first separator of `p + [c] + rest` is the one after `p` when `p` has none. */
  lemma IndexOfAfter(p: string, c: char, rest: string)
    requires c !in p
    ensures IndexOf(p + [c] + rest, c) == |p|
  {
    var s := p + [c] + rest;
    assert s[|p|] == c;
  }

  /** Joining pieces free of the separator and splitting again gives the pieces back. */
  lemma {:induction false} SplitJoin(parts: seq<string>, c: char)
    requires |parts| >= 1
    requires forall i :: 0 <= i < |parts| ==> c !in parts[i]
    ensures Split(Join(parts, c), c) == parts
    decreases |parts|
  {
    if |parts| > 1 {
      var rest := Join(parts[1..], c);
      var s := parts[0] + [c] + rest;
      IndexOfAfter(parts[0], c, rest);
      assert s[..|parts[0]|] == parts[0];
      assert s[|parts[0]| + 1..] == rest;
      SplitJoin(parts[1..], c);
      assert parts == [parts[0]] + parts[1..];
    }
  }

  /** A joined list of at least two pieces starts with the first two and the separators after them. */
  lemma JoinHead(parts: seq<string>, c: char)
    requires |parts| >= 2
    ensures parts[0] + [c] + parts[1] == Join(parts, c)
         || parts[0] + [c] + parts[1] + [c] <= Join(parts, c)
  {
    var tail := parts[1..];
    if |parts| > 2 {
      assert tail[1..] == parts[2..];
      assert Join(tail, c) == parts[1] + [c] + Join(parts[2..], c);
      assert Join(parts, c) == parts[0] + [c] + parts[1] + [c] + Join(parts[2..], c);
    }
  }

  /**
   * The icon set and glyph a string name designates: without a `/`, the
   * default set and the name itself; with one, the text before the first `/`
   * and the text between the first and the second, anything later dropped.
   */
  function ParseName(s: string): (r: (string, string))
    ensures '/' !in s ==> r == (DefaultSet, s)
    ensures '/' in s ==> '/' !in r.0 && '/' !in r.1
    ensures '/' in s ==> r.0 + "/" + r.1 == s || r.0 + "/" + r.1 + "/" <= s
  {
    if IndexOf(s, '/') != -1 then
      var parts := Split(s, '/');
      JoinSplit(s, '/');
      JoinHead(parts, '/');
      (parts[0], parts[1])
    else
      (DefaultSet, s)
  }

  /**
   * `Icon` as written: `name.indexOf("/")` runs before the `typeof` test, so
   * every truthy name without `indexOf` (a number, a `{ uri }` object, an
   * element, `true`) fails there, and an array holding the string "/" fails
   * at `split`. Only a string reaches the glyph and only an array the wrapper.
   */
  function Resolve(name: Source, color: Option<Color>, size: Option<real>): (r: Rendered)
    ensures r == Nothing <==> !NameTruthy(name)
    ensures r.Glyph? <==> name.Str? && name.s != ""
    ensures r.Glyph? ==> (r.iconSet, r.glyph) == ParseName(name.s) && r.color == color && r.size == size
    ensures !r.Image?
    ensures r.Wrapper? <==> name.NodeArray? && Str("/") !in name.items
    ensures r.Wrapper? ==> r.width == size && r.height == size && r.child == name
    ensures NameTruthy(name) && (name.Number? || name.UriObject? || name.Element? || name.Bool?) ==>
              r == TypeError("indexOf")
    ensures name.NodeArray? && Str("/") in name.items ==> r == TypeError("split")
  {
    if !NameTruthy(name) then Nothing
    else
      match name
      case Str(s) =>
        var (iconSet, glyph) := ParseName(s);
        Glyph(iconSet, glyph, color, size)
      case NodeArray(items) =>
        if Str("/") in items then TypeError("split") else Wrapper(size, size, name)
      case _ => TypeError("indexOf")
  }

  /**
   * `Icon` with the string test first, as the later branches evidently
   * intend: a `{ uri }` object or an asset number becomes a size-by-size
   * image tinted with `color`, any other truthy node a size-by-size wrapper.
   */
  function ResolveIntended(name: Source, color: Option<Color>, size: Option<real>): (r: Rendered)
    ensures r == Nothing <==> !NameTruthy(name)
    ensures name.Str? ==> r == Resolve(name, color, size)
    ensures r.Image? <==> NameTruthy(name) && (name.UriObject? || name.Number?)
    ensures r.Image? ==> r.source == name && r.width == size && r.height == size && r.tint == color
    ensures r.Glyph? <==> name.Str? && name.s != ""
    ensures r.Wrapper? <==> NameTruthy(name) && !name.Str? && !name.UriObject? && !name.Number?
    ensures r.Wrapper? ==> r.width == size && r.height == size && r.child == name
    ensures !r.TypeError?
  {
    if !NameTruthy(name) then Nothing
    else
      match name
      case Str(s) =>
        var (iconSet, glyph) := ParseName(s);
        Glyph(iconSet, glyph, color, size)
      case UriObject(_) => Image(name, size, size, color)
      case Number(_) => Image(name, size, size, color)
      case _ => Wrapper(size, size, name)
  }

  /** The input that shows the ordering fault: a `{ uri }` name fails as written and is an image as intended. */
  lemma UriNameFails(uri: string, color: Option<Color>, size: Option<real>)
    ensures Resolve(UriObject(uri), color, size) == TypeError("indexOf")
    ensures ResolveIntended(UriObject(uri), color, size) == Image(UriObject(uri), size, size, color)
  {
  }
}
