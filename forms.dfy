/** How each client turns the `<input>` elements of an availability row into
    the slot's booking form: walk the inputs in document order and write each
    captured one's value under its name, so a later input with the same name
    overwrites an earlier one. The Go clients capture an input when it carries
    both attributes; the Python parser also demands both be non-empty. */
module Forms {
  import opened Wrappers
  import opened Models

  datatype Rule = GoRule | PyRule

  /** Whether `rule` captures input `i`. */
  predicate Captures(rule: Rule, i: Input) {
    match rule
    case GoRule => i.name.Some? && i.value.Some?
    case PyRule => i.name.Some? && i.name.value != "" && i.value.Some? && i.value.value != ""
  }

  /** Input `i` is captured and writes the key `k`. */
  predicate Writes(rule: Rule, i: Input, k: string) {
    Captures(rule, i) && i.name.value == k
  }

  /** The form left behind after every input of `inputs` has been visited. */
  function FormOf(inputs: seq<Input>, rule: Rule): map<string, string> {
    if inputs == [] then map[]
    else
      var last := inputs[|inputs| - 1];
      var form := FormOf(inputs[..|inputs| - 1], rule);
      if Captures(rule, last) then form[last.name.value := last.value.value] else form
  }

  /** The loop inside each client's row callback. */
  method CaptureForm(inputs: seq<Input>, rule: Rule) returns (form: map<string, string>)
    ensures form == FormOf(inputs, rule)
  {
    form := map[];
    var i := 0;
    while i < |inputs|
      invariant 0 <= i <= |inputs|
      invariant form == FormOf(inputs[..i], rule)
    {
      assert inputs[..i + 1][..i] == inputs[..i];
      var input := inputs[i];
      if Captures(rule, input) {
        form := form[input.name.value := input.value.value];
      }
      i := i + 1;
    }
    assert inputs[..i] == inputs;
  }

  /** A key is in the form exactly when some captured input writes it. */
  lemma {:induction false} FormKeys(inputs: seq<Input>, rule: Rule, k: string)
    ensures k in FormOf(inputs, rule) <==> exists i :: 0 <= i < |inputs| && Writes(rule, inputs[i], k)
  {
    if inputs != [] {
      var n := |inputs| - 1;
      var front := inputs[..n];
      FormKeys(front, rule, k);
      if k in FormOf(inputs, rule) && !Writes(rule, inputs[n], k) {
        var i :| 0 <= i < |front| && Writes(rule, front[i], k);
        assert inputs[i] == front[i];
      }
      if exists i :: 0 <= i < |inputs| && Writes(rule, inputs[i], k) {
        var i :| 0 <= i < |inputs| && Writes(rule, inputs[i], k);
        if i < n {
          assert front[i] == inputs[i];
        }
      }
    }
  }

  /** The value under a key is that of the last captured input writing it. */
  lemma {:induction false} LastWriteWins(inputs: seq<Input>, rule: Rule, i: nat)
    requires i < |inputs| && Captures(rule, inputs[i])
    requires forall j :: i < j < |inputs| ==> !Writes(rule, inputs[j], inputs[i].name.value)
    ensures inputs[i].name.value in FormOf(inputs, rule)
    ensures FormOf(inputs, rule)[inputs[i].name.value] == inputs[i].value.value
  {
    var n := |inputs| - 1;
    if i < n {
      var front := inputs[..n];
      assert front[i] == inputs[i];
      forall j | i < j < |front|
        ensures !Writes(rule, front[j], front[i].name.value)
      {
        assert front[j] == inputs[j];
      }
      LastWriteWins(front, rule, i);
      assert !Writes(rule, inputs[n], inputs[i].name.value);
    }
  }

  /** Every input the Python rule captures, the Go rule captures too. */
  lemma PyRuleStricter(i: Input)
    ensures Captures(PyRule, i) ==> Captures(GoRule, i)
  {
  }

  /** The Python form never holds a key the Go form lacks. */
  lemma PyFormKeysWithinGo(inputs: seq<Input>, k: string)
    ensures k in FormOf(inputs, PyRule) ==> k in FormOf(inputs, GoRule)
  {
    FormKeys(inputs, PyRule, k);
    FormKeys(inputs, GoRule, k);
    if k in FormOf(inputs, PyRule) {
      var i :| 0 <= i < |inputs| && Writes(PyRule, inputs[i], k);
      assert Writes(GoRule, inputs[i], k);
    }
  }

  /** When no input carries an empty name or value the two rules build the same form. */
  lemma {:induction false} RulesAgreeWithoutEmpties(inputs: seq<Input>)
    requires forall i :: 0 <= i < |inputs| && Captures(GoRule, inputs[i]) ==> Captures(PyRule, inputs[i])
    ensures FormOf(inputs, GoRule) == FormOf(inputs, PyRule)
  {
    if inputs != [] {
      var n := |inputs| - 1;
      forall i | 0 <= i < n && Captures(GoRule, inputs[..n][i])
        ensures Captures(PyRule, inputs[..n][i])
      {
        assert inputs[..n][i] == inputs[i];
      }
      RulesAgreeWithoutEmpties(inputs[..n]);
    }
  }

  /** An input with an empty value is kept by Go and dropped by Python. */
  lemma EmptyValueDiverges()
    ensures FormOf([Input(Some("a"), Some(""))], GoRule) == map["a" := ""]
    ensures FormOf([Input(Some("a"), Some(""))], PyRule) == map[]
  {
    var s := [Input(Some("a"), Some(""))];
    assert s[..0] == [];
  }
}
