/**
 * JavaScript values, as far as `extend` can tell them apart, and `extend`
 * itself: a deep merge of source objects into a target that recurses
 * wherever `typeof` says "object".
 *
 * Objects are values here: `extend` mutates its target and returns it,
 * which the model states as returning the new target.
 */
module Objects {
  import opened Common

  /**
   * A property key: an array index, or any other name. Keys are kept in this
   * canonical form, so a name is never the decimal spelling of an index.
   */
  datatype Key = Index(index: nat) | Name(name: string)

  /**
   * The values `extend` meets. Arrays are objects whose `isArray` flag is
   * set and whose elements are held under index keys.
   */
  datatype Value =
    | Undefined
    | Null
    | Bool(b: bool)
    | Num(n: int)
    | Str(s: string)
    | Obj(props: map<Key, Value>, isArray: bool)

  /** The one error `extend` can raise in strict mode: writing a property of a primitive. */
  datatype Error = TypeError

  /** A fresh `{}`. */
  const EmptyObject: Value := Obj(map[], false)

  /** JavaScript truthiness (numbers are integers here, so there is no NaN). */
  predicate Truthy(v: Value)
  {
    match v
    case Undefined => false
    case Null => false
    case Bool(b) => b
    case Num(n) => n != 0
    case Str(s) => s != ""
    case Obj(_, _) => true
  }

  /** `typeof v === 'object'`, which holds for `null` and arrays too. */
  predicate IsObjectType(v: Value)
  {
    v.Null? || v.Obj?
  }

  /** `out || {}`. */
  function OrEmpty(v: Value): (r: Value)
    ensures Truthy(v) ==> r == v
    ensures !Truthy(v) ==> r == EmptyObject
  {
    if Truthy(v) then v else EmptyObject
  }

  /**
   * The keys `for (key in v)` visits and `v.hasOwnProperty(key)` accepts,
   * with their values: an object's own properties, a string's characters
   * under their indices, and nothing for other primitives.
   */
  function OwnProps(v: Value): map<Key, Value>
  {
    match v
    case Obj(props, _) => props
    case Str(s) => map i | 0 <= i < |s| :: Index(i) := Str([s[i]])
    case _ => map[]
  }

  /**
   * `v[key]` for the own properties this value model has: a missing
   * property, or a property of a primitive other than a string's
   * characters, reads as `undefined`. Inherited properties such as
   * `toString` are outside the model.
   */
  function Get(v: Value, k: Key): (r: Value)
    ensures k in OwnProps(v) ==> r == OwnProps(v)[k]
    ensures k !in OwnProps(v) ==> r == Undefined
  {
    if k in OwnProps(v) then OwnProps(v)[k] else Undefined
  }

  // ---------------------------------------------------------------------
  // extend, as a specification

  /**
   * One pass of the source loop: merge the own properties of `src` into the
   * (already truthy) target `out`. A falsy source is skipped; writing into a
   * primitive target throws.
   */
  function MergeSource(out: Value, src: Value): Result<Value, Error>
    decreases src, 2
  {
    if !Truthy(src) || OwnProps(src) == map[] then Ok(out)
    else if !out.Obj? then Err(TypeError)
    else if src.Obj? then MergeObject(out, src)
    else Ok(Obj(out.props + OwnProps(src), out.isArray))
  }

  /** Merge the properties of the object `src` into the object `out`, key by key. */
  function MergeObject(out: Value, src: Value): Result<Value, Error>
    requires out.Obj? && src.Obj?
    decreases src, 1
  {
    if exists k :: k in src.props && MergedAt(out, src, k).Err? then Err(TypeError)
    else Ok(Obj(map k | k in out.props.Keys + src.props.Keys ::
                  if k in src.props then MergedAt(out, src, k).value else out.props[k],
                out.isArray))
  }

  /**
   * The new value of `out[k]`: `extend(out[k], src[k])` when `src[k]` is an
   * object (or null), and `src[k]` itself otherwise.
   */
  function MergedAt(out: Value, src: Value, k: Key): Result<Value, Error>
    requires out.Obj? && src.Obj? && k in src.props
    decreases src, 0
  {
    if IsObjectType(src.props[k]) then MergeSource(OrEmpty(Get(out, k)), src.props[k])
    else Ok(src.props[k])
  }

  /** The sources merged one after the other into `out`, stopping at the first error. */
  function MergeAll(out: Value, sources: seq<Value>): Result<Value, Error>
    decreases |sources|
  {
    if sources == [] then Ok(out)
    else match MergeSource(out, sources[0])
      case Err(e) => Err(e)
      case Ok(o) => MergeAll(o, sources[1..])
  }

  /** `extend(out, sources...)`. */
  function Extended(out: Value, sources: seq<Value>): Result<Value, Error>
  {
    MergeAll(OrEmpty(out), sources)
  }

  // ---------------------------------------------------------------------
  // extend, as the source writes it

  /**
   * `extend(out, sources...)`: loops over the sources and, for each, over
   * its own keys, writing each key into the target in turn. The order in
   * which the keys are visited does not change the result.
   */
  method Extend(out: Value, sources: seq<Value>) returns (r: Result<Value, Error>)
    ensures r == Extended(out, sources)
  {
    var target := OrEmpty(out);
    var i := 0;
    while i < |sources|
      invariant i <= |sources|
      invariant Extended(out, sources) == MergeAll(target, sources[i..])
    {
      assert sources[i..][1..] == sources[i + 1..];
      var merged := MergeInto(target, sources[i]);
      if merged.Err? {
        return Err(merged.error);
      }
      target := merged.value;
      i := i + 1;
    }
    return Ok(target);
  }

  /** One pass of the source loop of `extend`: the keys of one source written into the target. */
  method MergeInto(out: Value, src: Value) returns (r: Result<Value, Error>)
    ensures r == MergeSource(out, src)
    decreases src, 0
  {
    var keys := OwnProps(src);
    if !Truthy(src) || keys == map[] {
      return Ok(out);
    }
    if !out.Obj? {
      return Err(TypeError);
    }
    var props := out.props;
    var todo := keys.Keys;
    while todo != {}
      invariant todo <= keys.Keys
      invariant props.Keys == out.props.Keys + (keys.Keys - todo)
      invariant forall k :: k in props && k !in keys ==> props[k] == out.props[k]
      invariant forall k :: k in keys && k !in todo ==> k in props && Written(out, src, k, props[k])
      decreases todo
    {
      var k :| k in todo;
      var v := keys[k];
      if IsObjectType(v) {
        var inner := MergeInto(OrEmpty(Get(out, k)), v);
        if inner.Err? {
          assert src.Obj? && MergedAt(out, src, k).Err?;
          return Err(TypeError);
        }
        props := props[k := inner.value];
      } else {
        props := props[k := v];
      }
      todo := todo - {k};
    }
    r := Ok(Obj(props, out.isArray));
    if src.Obj? {
      assert forall k :: k in src.props ==> MergedAt(out, src, k) == Ok(props[k]);
      assert props == map k | k in out.props.Keys + src.props.Keys ::
                        if k in src.props then MergedAt(out, src, k).value else out.props[k];
      assert !exists k :: k in src.props && MergedAt(out, src, k).Err?;
      assert MergeSource(out, src) == MergeObject(out, src);
    } else {
      assert props == out.props + keys;
    }
  }

  /** `out[k]` has been given its merged value `v`. */
  predicate Written(out: Value, src: Value, k: Key, v: Value)
    requires out.Obj? && k in OwnProps(src)
  {
    if src.Obj? then MergedAt(out, src, k) == Ok(v) else v == OwnProps(src)[k]
  }

  // ---------------------------------------------------------------------
  // What extend promises

  /** `src` is a truthy source that holds `k` among its own keys, so `extend` writes `k` from it. */
  predicate Holds(src: Value, k: Key)
  {
    Truthy(src) && k in OwnProps(src)
  }

  /**
   * One source: a key it holds with a non-object value now has that value,
   * and a key it does not hold reads as before.
   */
  lemma MergeSourceKey(out: Value, src: Value, k: Key)
    requires MergeSource(out, src).Ok?
    ensures Holds(src, k) && !IsObjectType(OwnProps(src)[k]) ==> Get(MergeSource(out, src).value, k) == OwnProps(src)[k]
    ensures !Holds(src, k) ==> Get(MergeSource(out, src).value, k) == Get(out, k)
  {
    if Truthy(src) && OwnProps(src) != map[] && src.Obj? {
      assert !exists k :: k in src.props && MergedAt(out, src, k).Err?;
    }
  }

  /** A key that no source holds keeps the value it had in the target. */
  lemma {:induction false} UntouchedKey(out: Value, sources: seq<Value>, k: Key)
    requires MergeAll(out, sources).Ok?
    requires forall j :: 0 <= j < |sources| ==> !Holds(sources[j], k)
    ensures Get(MergeAll(out, sources).value, k) == Get(out, k)
    decreases |sources|
  {
    if sources != [] {
      var o := MergeSource(out, sources[0]).value;
      MergeSourceKey(out, sources[0], k);
      assert forall j :: 0 <= j < |sources[1..]| ==> sources[1..][j] == sources[j + 1];
      UntouchedKey(o, sources[1..], k);
    }
  }

  /** For a non-object value, the last source that holds the key wins. */
  lemma {:induction false} LastSourceWins(out: Value, sources: seq<Value>, k: Key, j: nat)
    requires MergeAll(out, sources).Ok?
    requires j < |sources| && Holds(sources[j], k) && !IsObjectType(OwnProps(sources[j])[k])
    requires forall i :: j < i < |sources| ==> !Holds(sources[i], k)
    ensures Get(MergeAll(out, sources).value, k) == OwnProps(sources[j])[k]
    decreases j
  {
    var o := MergeSource(out, sources[0]).value;
    assert forall i :: 0 <= i < |sources[1..]| ==> sources[1..][i] == sources[i + 1];
    if j == 0 {
      MergeSourceKey(out, sources[0], k);
      UntouchedKey(o, sources[1..], k);
    } else {
      LastSourceWins(o, sources[1..], k, j - 1);
    }
  }

  /** A falsy source (`undefined`, `null`, `false`, `0`, `""`) is skipped. */
  lemma {:induction false} FalsySourceSkipped(out: Value, before: seq<Value>, src: Value, after: seq<Value>)
    requires !Truthy(src)
    ensures MergeAll(out, before + [src] + after) == MergeAll(out, before + after)
    decreases |before|
  {
    if before == [] {
      assert before + [src] + after == [src] + after;
      assert ([src] + after)[0] == src && ([src] + after)[1..] == after;
      assert MergeSource(out, src) == Ok(out);
      assert before + after == after;
      assert MergeAll(out, [src] + after) == MergeAll(out, after);
    } else {
      assert (before + [src] + after)[0] == (before + after)[0] == before[0];
      assert (before + [src] + after)[1..] == before[1..] + [src] + after;
      assert (before + after)[1..] == before[1..] + after;
      match MergeSource(out, before[0])
      case Err(_) =>
      case Ok(o) => FalsySourceSkipped(o, before[1..], src, after);
    }
  }

  /**
   * The target is what comes back: an object target keeps its kind and
   * every key it had, and a primitive target (which takes no writes) comes
   * back unchanged.
   */
  lemma {:induction false} TargetReturned(out: Value, sources: seq<Value>)
    requires Truthy(out) && MergeAll(out, sources).Ok?
    ensures out.Obj? ==> (MergeAll(out, sources).value.Obj?
                          && MergeAll(out, sources).value.isArray == out.isArray
                          && out.props.Keys <= MergeAll(out, sources).value.props.Keys)
    ensures !out.Obj? ==> MergeAll(out, sources).value == out
    decreases |sources|
  {
    if sources != [] {
      var src := sources[0];
      assert MergeSource(out, src).Ok?;
      var o := MergeSource(out, src).value;
      if out.Obj? && Truthy(src) && OwnProps(src) != map[] && src.Obj? {
        assert !exists k :: k in src.props && MergedAt(out, src, k).Err?;
      }
      assert out.Obj? ==> o.Obj? && o.isArray == out.isArray && out.props.Keys <= o.props.Keys;
      TargetReturned(o, sources[1..]);
    }
  }

  /** With a falsy target, `extend` builds a fresh plain object. */
  lemma FalsyTargetGivesObject(out: Value, sources: seq<Value>)
    requires !Truthy(out) && Extended(out, sources).Ok?
    ensures Extended(out, sources).value.Obj? && !Extended(out, sources).value.isArray
  {
    TargetReturned(EmptyObject, sources);
  }

  /** A truthy primitive target throws exactly when some truthy source has an own key to write. */
  lemma {:induction false} PrimitiveTargetThrows(out: Value, sources: seq<Value>)
    requires Truthy(out) && !out.Obj?
    ensures MergeAll(out, sources).Err? <==> exists j :: 0 <= j < |sources| && Truthy(sources[j]) && OwnProps(sources[j]) != map[]
    decreases |sources|
  {
    if sources != [] {
      PrimitiveTargetThrows(out, sources[1..]);
      if exists j :: 0 <= j < |sources[1..]| && Truthy(sources[1..][j]) && OwnProps(sources[1..][j]) != map[] {
        var j :| 0 <= j < |sources[1..]| && Truthy(sources[1..][j]) && OwnProps(sources[1..][j]) != map[];
        assert sources[1..][j] == sources[j + 1];
      }
      if exists j :: 0 <= j < |sources| && Truthy(sources[j]) && OwnProps(sources[j]) != map[] {
        var j :| 0 <= j < |sources| && Truthy(sources[j]) && OwnProps(sources[j]) != map[];
        if j > 0 {
          assert sources[1..][j - 1] == sources[j];
        }
      }
    }
  }

  /** Merging into a fresh `{}` never throws, however deep the source. */
  lemma IntoEmptyOk(src: Value)
    ensures MergeSource(EmptyObject, src).Ok?
    decreases src
  {
    if Truthy(src) && OwnProps(src) != map[] && src.Obj? {
      forall k | k in src.props && IsObjectType(src.props[k])
        ensures MergedAt(EmptyObject, src, k).Ok?
      {
        IntoEmptyOk(src.props[k]);
      }
    }
  }

  /**
   * A source whose values are all primitives is merged by plain assignment:
   * its properties overwrite the target's, and the target keeps its kind.
   */
  lemma FlatMerge(out: Value, src: Value)
    requires out.Obj? && src.Obj? && src.props != map[]
    requires forall k :: k in src.props ==> !IsObjectType(src.props[k])
    ensures MergeSource(out, src) == Ok(Obj(out.props + src.props, out.isArray))
  {
    assert forall k :: k in src.props ==> MergedAt(out, src, k) == Ok(src.props[k]);
    var merged := map k | k in out.props.Keys + src.props.Keys ::
                    if k in src.props then MergedAt(out, src, k).value else out.props[k];
    assert merged.Keys == (out.props + src.props).Keys;
    assert merged == out.props + src.props;
    assert !exists k :: k in src.props && MergedAt(out, src, k).Err?;
    assert MergeObject(out, src) == Ok(Obj(merged, out.isArray));
    assert OwnProps(src) == src.props;
  }

  /**
   * The example of `extend`'s doc comment: the array under `baz` comes out
   * as a plain object with index keys, because the nested call starts from
   * `{}`.
   */
  lemma ArrayBecomesObjectExample()
    ensures var digits := map[Index(0) := Num(1), Index(1) := Num(2), Index(2) := Num(3)];
      Extended(Obj(map[Name("foo") := Num(2), Name("bar") := Bool(true)], false),
               [Obj(map[Name("foo") := Num(3), Name("baz") := Obj(digits, true)], false)])
      == Ok(Obj(map[Name("foo") := Num(3), Name("bar") := Bool(true), Name("baz") := Obj(digits, false)], false))
  {
    var digits := map[Index(0) := Num(1), Index(1) := Num(2), Index(2) := Num(3)];
    var out := Obj(map[Name("foo") := Num(2), Name("bar") := Bool(true)], false);
    var src := Obj(map[Name("foo") := Num(3), Name("baz") := Obj(digits, true)], false);
    var expected := map[Name("foo") := Num(3), Name("bar") := Bool(true), Name("baz") := Obj(digits, false)];
    assert MergedAt(out, src, Name("baz")) == Ok(Obj(digits, false)) by {
      assert Index(0) in digits;
      FlatMerge(EmptyObject, Obj(digits, true));
      assert map[] + digits == digits;
    }
    forall k | k in src.props
      ensures MergedAt(out, src, k) == Ok(expected[k])
    {
      if k != Name("baz") {
        assert k == Name("foo");
      }
    }
    assert expected.Keys == out.props.Keys + src.props.Keys;
    KeywiseMerge(out, src, expected);
    assert MergeAll(Obj(expected, false), []) == Ok(Obj(expected, false));
  }

  /** An object source whose every key merges without error: the target with each key's merged value. */
  lemma KeywiseMerge(out: Value, src: Value, expected: map<Key, Value>)
    requires out.Obj? && src.Obj? && src.props != map[]
    requires expected.Keys == out.props.Keys + src.props.Keys
    requires forall k :: k in src.props ==> MergedAt(out, src, k) == Ok(expected[k])
    requires forall k :: k in out.props && k !in src.props ==> expected[k] == out.props[k]
    ensures MergeSource(out, src) == Ok(Obj(expected, out.isArray))
  {
    assert OwnProps(src) == src.props && Truthy(src);
    assert MergeSource(out, src) == MergeObject(out, src);
    assert !exists k :: k in src.props && MergedAt(out, src, k).Err?;
    var merged := map k | k in out.props.Keys + src.props.Keys ::
                    if k in src.props then MergedAt(out, src, k).value else out.props[k];
    assert merged.Keys == expected.Keys;
    forall k | k in merged
      ensures merged[k] == expected[k]
    {
    }
    assert merged == expected;
  }

}
