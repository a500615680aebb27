/** The A/B test editor (components/admin/AbTestEditor.tsx): a test record
    with a list of variants, the three checks before a save, and the
    variant list edits. */
module AbTestEditor {
  import opened Common

  /** A variant's `trafficPercentage` is a number; `None` stands for the
      `NaN` that `parseInt` gives for a cleared input. */
  datatype Variant = Variant(quizId: string, trafficPercentage: Option<int>)

  datatype AbTest = AbTest(id: Option<string>, name: string, slug: string, status: string, variants: seq<Variant>)

  /** The test handed in for editing, if any; each property may be absent. */
  datatype InitialTest = InitialTest(id: Option<string>, name: Option<string>, slug: Option<string>,
                                     status: Option<string>, variants: Option<seq<Variant>>)

  const DefaultVariants: seq<Variant> := [Variant("", Some(50)), Variant("", Some(50))]

  /** The initial `test` state: each property of the given test, or its default. */
  function InitialState(initial: Option<InitialTest>): AbTest {
    match initial
    case None => AbTest(None, "", "", "draft", DefaultVariants)
    case Some(t) => AbTest(t.id, OrElse(t.name, ""), OrElse(t.slug, ""), OrElse(t.status, "draft"), t.variants.GetOr(DefaultVariants))
  }

  /** `parseInt(v.trafficPercentage) || 0`: `NaN` counts as 0. */
  function Traffic(v: Variant): int {
    v.trafficPercentage.GetOr(0)
  }

  /** The `reduce` over the variants. */
  function TotalTraffic(variants: seq<Variant>): int {
    if variants == [] then 0 else Traffic(variants[0]) + TotalTraffic(variants[1..])
  }

  predicate SomeVariantWithoutQuiz(variants: seq<Variant>) {
    exists i :: 0 <= i < |variants| && variants[i].quizId == ""
  }

  /** The failures, with the total the traffic message reports. */
  datatype ValidationError = MissingNameOrSlug | TrafficNot100(total: int) | VariantWithoutQuiz

  /** The checks of `handleSave` in their order; the first failure is the one reported. */
  function Validate(test: AbTest): Option<ValidationError> {
    if test.name == "" || test.slug == "" then Some(MissingNameOrSlug)
    else if TotalTraffic(test.variants) != 100 then Some(TrafficNot100(TotalTraffic(test.variants)))
    else if SomeVariantWithoutQuiz(test.variants) then Some(VariantWithoutQuiz)
    else None
  }

  /** A save request passes exactly when the name and slug are non-empty,
      the traffic adds up to 100 and every variant has a quiz; a later
      check is reported only when the earlier ones pass. */
  lemma ValidateIff(test: AbTest)
    ensures Validate(test).None? <==>
      test.name != "" && test.slug != "" && TotalTraffic(test.variants) == 100 &&
      forall i :: 0 <= i < |test.variants| ==> test.variants[i].quizId != ""
    ensures Validate(test) == Some(MissingNameOrSlug) <==> test.name == "" || test.slug == ""
    ensures Validate(test).Some? && Validate(test).value.TrafficNot100? <==>
      test.name != "" && test.slug != "" && TotalTraffic(test.variants) != 100
    ensures Validate(test).Some? && Validate(test).value.TrafficNot100? ==>
      Validate(test).value.total == TotalTraffic(test.variants)
    ensures Validate(test) == Some(VariantWithoutQuiz) ==> TotalTraffic(test.variants) == 100
  {
  }

  lemma {:induction false} TotalTrafficConcat(a: seq<Variant>, b: seq<Variant>)
    ensures TotalTraffic(a + b) == TotalTraffic(a) + TotalTraffic(b)
  {
    if a == [] {
      assert a + b == b;
    } else {
      assert (a + b)[1..] == a[1..] + b;
      TotalTrafficConcat(a[1..], b);
    }
  }

  /** The two default variants split the traffic 50/50. */
  lemma DefaultsAddUp()
    ensures TotalTraffic(DefaultVariants) == 100
    ensures Validate(InitialState(None)) == Some(MissingNameOrSlug)
  {
  }

  /** The variant `addVariant` appends. */
  const NewVariant: Variant := Variant("", Some(0))

  /** Appending the blank variant keeps the total. */
  lemma AddKeepsTotal(variants: seq<Variant>)
    ensures TotalTraffic(variants + [NewVariant]) == TotalTraffic(variants)
  {
    TotalTrafficConcat(variants, [NewVariant]);
  }

  /** Removing a variant takes away exactly its share. */
  lemma {:induction false} RemoveTakesShare(variants: seq<Variant>, index: nat)
    requires index < |variants|
    ensures TotalTraffic(RemoveAt(variants, index)) == TotalTraffic(variants) - Traffic(variants[index])
  {
    if index == 0 {
      assert RemoveAt(variants, 0) == variants[1..];
    } else {
      RemoveTakesShare(variants[1..], index - 1);
      assert RemoveAt(variants, index) == [variants[0]] + RemoveAt(variants[1..], index - 1);
    }
  }

  /** Replacing a variant changes the total by the difference of the shares. */
  lemma {:induction false} ReplaceChangesShare(variants: seq<Variant>, index: nat, v: Variant)
    requires index < |variants|
    ensures TotalTraffic(ReplaceAt(variants, index, v)) == TotalTraffic(variants) - Traffic(variants[index]) + Traffic(v)
  {
    if index == 0 {
      assert ReplaceAt(variants, 0, v) == [v] + variants[1..];
    } else {
      ReplaceChangesShare(variants[1..], index - 1, v);
      assert ReplaceAt(variants, index, v) == [variants[0]] + ReplaceAt(variants[1..], index - 1, v);
    }
  }

  /** One field edit of `updateVariant`. */
  datatype VariantEdit = SetQuizId(quizId: string) | SetTrafficPercentage(percentage: Option<int>)

  function ApplyEdit(v: Variant, edit: VariantEdit): Variant {
    match edit
    case SetQuizId(q) => v.(quizId := q)
    case SetTrafficPercentage(p) => v.(trafficPercentage := p)
  }

  /** What `saveAbTest` answers. */
  datatype SaveResult = SaveResult(success: bool, error: Option<string>)

  /** The message line above the form. */
  datatype EditorError = NoError | Invalid(reason: ValidationError) | ServerFailed(message: string)

  class Editor {
    var test: AbTest
    var error: EditorError
    /** The tests sent to `saveAbTest`, in order. */
    var saveCalls: seq<AbTest>
    /** Whether the editor has navigated back to the test list. */
    var navigated: bool

    constructor (initial: Option<InitialTest>)
      ensures test == InitialState(initial) && error == NoError && saveCalls == [] && !navigated
    {
      test := InitialState(initial);
      error := NoError;
      saveCalls := [];
      navigated := false;
    }

    /** `handleSave`: a failing check is reported and nothing is sent;
        otherwise the test is sent, and `result` is the server's answer. */
    method HandleSave(result: SaveResult)
      modifies this`error, this`saveCalls, this`navigated
      ensures Validate(test).Some? ==>
        error == Invalid(Validate(test).value) && saveCalls == old(saveCalls) && navigated == old(navigated)
      ensures Validate(test).None? ==> saveCalls == old(saveCalls) + [test]
      ensures Validate(test).None? && result.success ==> error == NoError && navigated
      ensures Validate(test).None? && !result.success ==>
        error == ServerFailed(OrElse(result.error, "Failed to save test")) && navigated == old(navigated)
    {
      error := NoError;
      var failure := Validate(test);
      if failure.Some? {
        error := Invalid(failure.value);
        return;
      }
      saveCalls := saveCalls + [test];
      if result.success {
        navigated := true;
      } else {
        error := ServerFailed(OrElse(result.error, "Failed to save test"));
      }
    }

    /** `addVariant`: one blank variant at the end. */
    method AddVariant()
      modifies this`test
      ensures test == old(test).(variants := old(test).variants + [NewVariant])
      ensures TotalTraffic(test.variants) == TotalTraffic(old(test).variants)
    {
      test := test.(variants := test.variants + [NewVariant]);
      AddKeepsTotal(old(test).variants);
    }

    /** `removeVariant`: a copy without element `index`. */
    method RemoveVariant(index: nat)
      modifies this`test
      ensures test == old(test).(variants := RemoveAt(old(test).variants, index))
    {
      var newVariants := test.variants;
      newVariants := RemoveAt(newVariants, index);
      test := test.(variants := newVariants);
    }

    /** `updateVariant`: a copy with one field of element `index` replaced;
        the index comes from the rendered list. */
    method UpdateVariant(index: nat, edit: VariantEdit)
      requires index < |test.variants|
      modifies this`test
      ensures test == old(test).(variants := ReplaceAt(old(test).variants, index, ApplyEdit(old(test).variants[index], edit)))
    {
      var newVariants := test.variants;
      newVariants := ReplaceAt(newVariants, index, ApplyEdit(newVariants[index], edit));
      test := test.(variants := newVariants);
    }
  }
}
