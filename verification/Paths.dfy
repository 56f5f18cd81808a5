/** Which strings of a body are masked, told by the way that leads to them. */
module Paths {
  import opened Json
  import opened Desensitize
  import opened Bodies

  datatype Turn = Key(key: string) | At(i: nat)

  /** What is found at the end of a path. */
  function Find(v: Value, path: seq<Turn>): Option<Value>
    decreases |path|
  {
    if path == [] then Some(v)
    else match path[0]
      case Key(k) => if v.Obj? && k in v.fields then Find(v.fields[k], path[1..]) else None
      case At(i) => if v.Arr? && i < |v.items| then Find(v.items[i], path[1..]) else None
  }

  /** The path leads into an array directly inside an array. */
  predicate EntersNested(path: seq<Turn>)
    decreases |path|
  {
    |path| >= 2 && ((path[0].At? && path[1].At?) || EntersNested(path[1..]))
  }

  /** The value at a place before and after masking: strings become their masked text unless they lie in an array inside
      an array, objects keep their keys, arrays their length, and all else stays. */
  predicate IsMaskedAt(path: seq<Turn>, rules: seq<Rule>, v: Option<Value>, out: Option<Value>) {
    match v
    case None => out == None
    case Some(Str(s)) => out == Some(Str(if EntersNested(path) then s else Mask(s, rules).text))
    case Some(Obj(fields)) => out.Some? && out.value.Obj? && out.value.fields.Keys == fields.Keys
    case Some(Arr(items)) => out.Some? && out.value.Arr? && |out.value.items| == |items|
    case Some(other) => out == Some(other)
  }

  /** At every place of a body. So the content of message `i` at `messages`, `i`, `content` is masked, and so is the
      text of its part `j` at `messages`, `i`, `content`, `j`, `text`. */
  lemma {:induction false} MaskedAtEveryPlace(v: Value, path: seq<Turn>, rules: seq<Rule>)
    ensures IsMaskedAt(path, rules, Find(v, path), Find(Masked(v, rules), path))
    decreases |path|
  {
    if path != [] {
      match path[0] {
        case Key(k) =>
          if v.Obj? && k in v.fields {
            MaskedAtEveryPlace(v.fields[k], path[1..], rules);
            KeyEntersNothing(path);
          }
        case At(i) =>
          if v.Arr? && i < |v.items| {
            if v.items[i].Arr? {
              LeftAsItIs(v.items[i], path, rules);
            } else {
              MaskedAtEveryPlace(v.items[i], path[1..], rules);
              if Find(v, path).Some? {
                NoIndexFollows(v.items[i], path);
              }
            }
          }
      }
    }
  }

  lemma KeyEntersNothing(path: seq<Turn>)
    requires path != [] && path[0].Key?
    ensures EntersNested(path) <==> EntersNested(path[1..])
  {
  }

  lemma NoIndexFollows(item: Value, path: seq<Turn>)
    requires path != [] && path[0].At? && !item.Arr? && Find(item, path[1..]).Some?
    ensures EntersNested(path) <==> EntersNested(path[1..])
  {
  }

  /** Nothing changes below an array inside an array. */
  lemma LeftAsItIs(item: Value, path: seq<Turn>, rules: seq<Rule>)
    requires path != [] && path[0].At? && item.Arr?
    ensures IsMaskedAt(path, rules, Find(item, path[1..]), Find(item, path[1..]))
  {
  }

  /** The walk reaches exactly the strings that no path through an array inside an array leads to. */
  lemma ReachedByPaths(v: Value, s: string)
    ensures Reaches(v, s) <==> exists path :: Find(v, path) == Some(Str(s)) && !EntersNested(path)
  {
    if Reaches(v, s) {
      var path := PathTo(v, s);
    }
    forall path | Find(v, path) == Some(Str(s)) && !EntersNested(path) ensures Reaches(v, s) {
      PathReaches(v, path, s);
    }
  }

  lemma {:induction false} PathTo(v: Value, s: string) returns (path: seq<Turn>)
    requires Reaches(v, s)
    ensures Find(v, path) == Some(Str(s)) && !EntersNested(path)
    ensures path != [] && path[0].At? ==> v.Arr?
  {
    match v {
      case Str(t) => path := [];
      case Obj(fields) =>
        var k :| k in fields && Reaches(fields[k], s);
        var rest := PathTo(fields[k], s);
        path := [Key(k)] + rest;
        assert path[1..] == rest;
      case Arr(items) =>
        var i: nat :| i < |items| && !items[i].Arr? && Reaches(items[i], s);
        var rest := PathTo(items[i], s);
        path := [At(i)] + rest;
        assert path[1..] == rest;
    }
  }

  lemma {:induction false} PathReaches(v: Value, path: seq<Turn>, s: string)
    requires Find(v, path) == Some(Str(s)) && !EntersNested(path)
    ensures Reaches(v, s)
    decreases |path|
  {
    if path != [] {
      match path[0] {
        case Key(k) => PathReaches(v.fields[k], path[1..], s);
        case At(i) =>
          assert !v.items[i].Arr?;
          PathReaches(v.items[i], path[1..], s);
      }
    }
  }
}
