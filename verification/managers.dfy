/** The manager's checks and its wiring of configuration entries to
    factories (pydykit/managers.py). */
module Managers {
  import opened Outcomes

  /** What a component offers as `parametrization`: the names of the state
      blocks it works on, or None where it has no such attribute. */
  type Parametrization = Option<seq<string>>

  const NotCompatible := "System and integrator are not compatible."
  const NotValidated := "Could not validate compatibilty of system and integrator."
    + " Integrator does not have attribute `parametrization`"
    + " System does not have attribute `parametrization`"

  /** validate_integrator_system_combination: an integrator and a system
      fit together exactly when both declare a parametrization and the two
      agree; differing ones fail the assertion, a missing one raises. */
  function ValidateCombination(integrator: Parametrization, system: Parametrization): (r: Outcome)
    ensures r.Pass? <==> integrator.Some? && system.Some? && integrator.value == system.value
    ensures integrator.Some? && system.Some? && integrator.value != system.value
      ==> r == Fail(AssertionError(NotCompatible))
    ensures integrator.None? || system.None? ==> r == Fail(PydykitException(NotValidated))
  {
    if integrator.Some? && system.Some? then
      if system.value == integrator.value then Pass else Fail(AssertionError(NotCompatible))
    else
      Fail(PydykitException(NotValidated))
  }

  /** The check does not depend on which side is the integrator. */
  lemma ValidationSymmetric(a: Parametrization, b: Parametrization)
    ensures ValidateCombination(a, b) == ValidateCombination(b, a)
  {
  }

  /** The check is an equivalence on declared parametrizations: it passes
      on a component paired with itself, and two components that each pass
      with a third pass with each other. */
  lemma ValidationTransitive(a: Parametrization, b: Parametrization, c: Parametrization)
    ensures a.Some? ==> ValidateCombination(a, a).Pass?
    ensures ValidateCombination(a, b).Pass? && ValidateCombination(b, c).Pass?
      ==> ValidateCombination(a, c).Pass?
  {
  }

  // ---------------------------------------------------------------------
  // get_instance

  /** One configuration entry: the discriminator `class_name` and the
      remaining fields of the configuration model. */
  datatype Entry<V> = Entry(className: string, fields: map<string, V>)

  /** A value of a dumped entry: the discriminator or a field. */
  datatype Dumped<V> = ClassName(name: string) | Field(value: V)

  /** A keyword argument handed to a constructor. */
  datatype Kwarg<V> = ManagerRef | Setting(value: Dumped<V>)

  /** factory.get(key=…, **kwargs): the constructor key and its keywords. */
  datatype Call<V> = Call(key: string, kwargs: map<string, Kwarg<V>>)

  const Discriminator := "class_name"
  const ManagerKeyword := "manager"
  const KeyKeyword := "key"

  /** model_dump: every field, with the discriminator under `class_name`. */
  function ModelDump<V>(entry: Entry<V>): (d: map<string, Dumped<V>>)
    ensures d.Keys == entry.fields.Keys + {Discriminator}
    ensures d[Discriminator] == ClassName(entry.className)
    ensures forall k :: k in entry.fields && k != Discriminator ==> d[k] == Field(entry.fields[k])
  {
    (map k | k in entry.fields :: Field(entry.fields[k]))[Discriminator := ClassName(entry.className)]
  }

  /** get_instance: pop `class_name` from the dump, look the class name up
      among the factory's constructors (KeyError if none is registered under
      it) and pass the rest, plus `manager`, as keywords (TypeError when a
      field is itself called `key` or `manager`, as Python refuses a keyword
      given twice). */
  function GetInstance<V>(constructors: set<string>, entry: Entry<V>): (r: Result<Call<V>>)
    ensures r.Ok? <==>
      KeyKeyword !in entry.fields && ManagerKeyword !in entry.fields && entry.className in constructors
    ensures KeyKeyword in entry.fields || ManagerKeyword in entry.fields ==> r.Err? && r.error.TypeError?
    ensures KeyKeyword !in entry.fields && ManagerKeyword !in entry.fields && entry.className !in constructors
      ==> r == Err(KeyError(entry.className))
    ensures r.Ok? ==>
      && r.value.key == entry.className
      && r.value.kwargs.Keys == entry.fields.Keys - {Discriminator} + {ManagerKeyword}
      && r.value.kwargs[ManagerKeyword] == ManagerRef
      && forall k :: k in entry.fields && k != Discriminator ==> r.value.kwargs[k] == Setting(Field(entry.fields[k]))
  {
    var kwargs := ModelDump(entry) - {Discriminator};
    if KeyKeyword in kwargs then
      Err(TypeError("got multiple values for keyword argument 'key'"))
    else if ManagerKeyword in kwargs then
      Err(TypeError("got multiple values for keyword argument 'manager'"))
    else if entry.className !in constructors then
      Err(KeyError(entry.className))
    else
      Ok(Call(entry.className, (map k | k in kwargs :: Setting(kwargs[k]))[ManagerKeyword := ManagerRef]))
  }

  /** The keywords of a call, without the manager, read back as fields. */
  function FieldsOf<V>(call: Call<V>): map<string, V>
  {
    map k | k in call.kwargs && k != ManagerKeyword && call.kwargs[k].Setting? && call.kwargs[k].value.Field?
      :: call.kwargs[k].value.value
  }

  /** Nothing of the entry is lost on the way to the constructor: the call's
      key and keywords give the entry back (its fields never include the
      discriminator itself). */
  lemma {:induction false} GetInstanceRecoversEntry<V>(constructors: set<string>, entry: Entry<V>)
    requires Discriminator !in entry.fields
    requires GetInstance(constructors, entry).Ok?
    ensures var call := GetInstance(constructors, entry).value;
      Entry(call.key, FieldsOf(call)) == entry
  {
    var call := GetInstance(constructors, entry).value;
    var f := FieldsOf(call);
    forall k | k in entry.fields
      ensures k in f && f[k] == entry.fields[k]
    {
      assert call.kwargs[k] == Setting(Field(entry.fields[k]));
    }
    assert f.Keys == entry.fields.Keys;
    assert f == entry.fields;
  }
}
