/**
 * The option merge at the start of `modalLight(element, cstOptions)`:
 * `extend({modalClass: '.ModalLight-modal'}, cstOptions)`.
 */
module Options {
  import opened Common
  import opened Objects

  /** The one option the widget declares. */
  const ModalClassKey: Key := Name("modalClass")

  /** Its default value. */
  const DefaultModalClass: Value := Str(".ModalLight-modal")

  /** `defaultOptions`. */
  const DefaultOptions: Value := Obj(map[ModalClassKey := DefaultModalClass], false)

  /** `extend(defaultOptions, cstOptions)`. */
  function MergedOptions(user: Value): Result<Value, Error>
  {
    Extended(DefaultOptions, [user])
  }

  /** The user gives `modalClass` as an object with keys, which `extend` tries to write into the default string. */
  predicate ObjectModalClass(user: Value)
  {
    user.Obj? && ModalClassKey in user.props && user.props[ModalClassKey].Obj? && user.props[ModalClassKey].props != map[]
  }

  /**
   * The `modalClass` the merge settles on: the user's value when it is not
   * of object type (so `undefined` and `""` override too), else the default
   * (a `null` or an empty object leaves the default string in place).
   */
  function ChosenModalClass(user: Value): Value
  {
    if user.Obj? && ModalClassKey in user.props && !IsObjectType(user.props[ModalClassKey])
    then user.props[ModalClassKey]
    else DefaultModalClass
  }

  /**
   * The merge throws exactly when `modalClass` is given as an object with
   * keys; otherwise `modalClass` is the chosen value.
   */
  lemma ModalClassOption(user: Value)
    ensures MergedOptions(user).Err? <==> ObjectModalClass(user)
    ensures MergedOptions(user).Ok? ==> Get(MergedOptions(user).value, ModalClassKey) == ChosenModalClass(user)
  {
    var out := DefaultOptions;
    assert MergedOptions(user) == MergeSource(out, user) by {
      assert OrEmpty(DefaultOptions) == DefaultOptions;
      assert MergedOptions(user) == MergeAll(out, [user]);
      assert [user][1..] == [];
      if MergeSource(out, user).Ok? {
        assert MergeAll(MergeSource(out, user).value, []) == Ok(MergeSource(out, user).value);
      }
    }
    if Truthy(user) && OwnProps(user) != map[] && user.Obj? {
      forall k | k in user.props && k != ModalClassKey
        ensures MergedAt(out, user, k).Ok?
      {
        assert Get(out, k) == Undefined;
        IntoEmptyOk(user.props[k]);
      }
      assert MergeSource(out, user) == MergeObject(out, user);
      if ModalClassKey in user.props {
        assert Get(out, ModalClassKey) == DefaultModalClass;
        if ObjectModalClass(user) {
          assert MergedAt(out, user, ModalClassKey).Err?;
        } else {
          assert MergedAt(out, user, ModalClassKey) == Ok(ChosenModalClass(user));
          assert !exists k :: k in user.props && MergedAt(out, user, k).Err?;
          assert MergeSource(out, user).value.props[ModalClassKey] == ChosenModalClass(user);
        }
      } else {
        assert !exists k :: k in user.props && MergedAt(out, user, k).Err?;
        assert MergeSource(out, user).value.props[ModalClassKey] == DefaultModalClass;
      }
    }
  }
}
