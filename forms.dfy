/**
 * Form payloads: the fields copied from a form's named inputs, and the keys
 * the login and post strategies then overwrite.
 */
module Forms {
  import opened Wrappers
  import opened Web

  /** An input contributes to the payload when its `name` is present and not empty. */
  predicate IsNamed(input: Input) {
    input.name.Some? && input.name.value != ""
  }

  /** The value an input contributes: its `value` attribute, `""` when absent. */
  function ValueOf(input: Input): string {
    input.value.GetOr("")
  }

  /**
   * The fields of the named inputs, taken in document order; an input whose
   * name repeats an earlier one replaces its value.
   */
  function NamedInputs(inputs: seq<Input>): map<string, string>
    decreases |inputs|
  {
    if inputs == [] then map[]
    else
      var last := inputs[|inputs| - 1];
      var m := NamedInputs(inputs[..|inputs| - 1]);
      if IsNamed(last) then m[last.name.value := ValueOf(last)] else m
  }

  /** `inputs[i]` is the last input named `k`. */
  ghost predicate LastNamed(inputs: seq<Input>, k: string, i: int) {
    0 <= i < |inputs| && inputs[i].name == Some(k)
    && forall j :: i < j < |inputs| ==> inputs[j].name != Some(k)
  }

  /** A key is in the payload exactly when some input carries that non-empty name. */
  lemma {:induction false} NamedInputsKeys(inputs: seq<Input>, k: string)
    ensures k in NamedInputs(inputs) <==> k != "" && exists i :: 0 <= i < |inputs| && inputs[i].name == Some(k)
    decreases |inputs|
  {
    if inputs != [] {
      var n := |inputs| - 1;
      var init := inputs[..n];
      var last := inputs[n];
      assert NamedInputs(inputs) == if IsNamed(last) then NamedInputs(init)[last.name.value := ValueOf(last)] else NamedInputs(init);
      if !(last.name == Some(k) && k != "") {
        NamedInputsKeys(init, k);
        assert forall i :: 0 <= i < n ==> inputs[i] == init[i];
        if k != "" && exists i :: 0 <= i < |inputs| && inputs[i].name == Some(k) {
          var i :| 0 <= i < |inputs| && inputs[i].name == Some(k);
          assert init[i].name == Some(k);
        }
      }
    }
  }

  /** A key of the payload holds the value of the last input with that name. */
  lemma {:induction false} NamedInputsValues(inputs: seq<Input>, k: string)
    requires k in NamedInputs(inputs)
    ensures exists i :: LastNamed(inputs, k, i) && NamedInputs(inputs)[k] == ValueOf(inputs[i])
    decreases |inputs|
  {
    var n := |inputs| - 1;
    var init := inputs[..n];
    var last := inputs[n];
    var m := NamedInputs(init);
    assert NamedInputs(inputs) == if IsNamed(last) then m[last.name.value := ValueOf(last)] else m;
    NamedInputsKeys(inputs, k);
    if last.name == Some(k) {
      assert LastNamed(inputs, k, n);
    } else {
      assert k in m && NamedInputs(inputs)[k] == m[k];
      NamedInputsValues(init, k);
      var i :| LastNamed(init, k, i) && m[k] == ValueOf(init[i]);
      assert inputs[i] == init[i];
      assert forall j :: i < j < n ==> inputs[j] == init[j];
      assert LastNamed(inputs, k, i);
    }
  }

  /** Copies the fields of a form's named inputs into a fresh payload, input by input. */
  method CollectInputs(inputs: seq<Input>) returns (fields: map<string, string>)
    ensures fields == NamedInputs(inputs)
  {
    fields := map[];
    for i := 0 to |inputs|
      invariant fields == NamedInputs(inputs[..i])
    {
      assert inputs[..i + 1][..i] == inputs[..i];
      var input := inputs[i];
      if IsNamed(input) {
        fields := fields[input.name.value := ValueOf(input)];
      }
    }
    assert inputs[..|inputs|] == inputs;
  }

  /** The form's `action` attribute, `""` when absent. */
  function ActionOf(form: Form): string {
    form.action.GetOr("")
  }

  /** The form login payload: the collected inputs, with `username` and `password` overwritten. */
  function LoginPayload(inputs: seq<Input>, username: string, password: string): map<string, string> {
    NamedInputs(inputs)["username" := username]["password" := password]
  }

  /** The login payload holds the collected inputs plus the credentials, which win over any input of the same name. */
  lemma LoginPayloadFields(inputs: seq<Input>, username: string, password: string)
    ensures var fields := LoginPayload(inputs, username, password);
            && fields.Keys == NamedInputs(inputs).Keys + {"username", "password"}
            && fields["username"] == username && fields["password"] == password
            && forall k :: k in NamedInputs(inputs) && k != "username" && k != "password" ==>
                 fields[k] == NamedInputs(inputs)[k]
  {
  }

  /** The field the post text goes into: the textarea's name, or `content` when it has none. */
  function TextareaKey(form: Form): string {
    match form.textarea
    case Some(Textarea(Some(name))) => name
    case _ => "content"
  }

  /**
   * The form post payload: the collected inputs, the post text under the
   * textarea's key, and the post's hashtags under both `hashtags` and `tags`
   * when the post has a `hashtags` key.
   */
  function PostPayload(form: Form, text: string, post: map<string, string>): map<string, string> {
    var withText := NamedInputs(form.inputs)[TextareaKey(form) := text];
    if "hashtags" in post then
      withText["hashtags" := post["hashtags"]]["tags" := post["hashtags"]]
    else
      withText
  }

  /**
   * The post payload holds the collected inputs, the text key and, exactly
   * when the post has hashtags, `hashtags` and `tags`; the hashtags win over
   * the text, the text over the inputs.
   */
  lemma PostPayloadFields(form: Form, text: string, post: map<string, string>)
    ensures var fields := PostPayload(form, text, post);
            && fields.Keys == NamedInputs(form.inputs).Keys + {TextareaKey(form)}
                              + (if "hashtags" in post then {"hashtags", "tags"} else {})
            && ("hashtags" in post ==> fields["hashtags"] == post["hashtags"] && fields["tags"] == post["hashtags"])
            && (("hashtags" !in post || TextareaKey(form) !in {"hashtags", "tags"}) ==> fields[TextareaKey(form)] == text)
            && forall k :: k in NamedInputs(form.inputs) && k != TextareaKey(form)
                           && ("hashtags" in post ==> k != "hashtags" && k != "tags") ==>
                 fields[k] == NamedInputs(form.inputs)[k]
  {
  }
}
