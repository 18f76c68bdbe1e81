/**
 * The options flow: a single form that edits the polling interval of the
 * existing configuration entry.
 */
module OptionsFlow {
  import opened Wrappers
  import opened FlowTypes
  import opened Validation

  /** A redisplayed form with its errors, or the stored options: the parsed interval. */
  datatype OptionsResult =
    | OptionsForm(errors: Errors)
    | OptionsEntry(title: string, updatePoolingInterval: real)

  /**
   * The `user` step. `input` is the submitted interval text, None when the
   * form is first shown.
   */
  function StepUser(input: Option<string>, parseFloat: string -> Option<real>): (r: OptionsResult)
    ensures r.OptionsEntry? <==>
      input.Some? && parseFloat(input.value).Some? && parseFloat(input.value).value != 0.0
    ensures r.OptionsEntry? ==> r.title == Title && Some(r.updatePoolingInterval) == parseFloat(input.value)
    ensures input.None? ==> r == OptionsForm(map[])
    ensures r.OptionsForm? && input.Some? ==> r.errors == ValidatePooling(input.value, parseFloat) && r.errors != map[]
  {
    if input.None? then OptionsForm(map[])
    else
      var errors := ValidatePooling(input.value, parseFloat);
      if errors == map[] then OptionsEntry(Title, parseFloat(input.value).value)
      else OptionsForm(errors)
  }

  /** The `init` step delegates to `user` without passing the input on: it always shows the empty form. */
  function StepInit(input: Option<string>, parseFloat: string -> Option<real>): (r: OptionsResult)
    ensures r == OptionsForm(map[])
  {
    StepUser(None, parseFloat)
  }

  /** "30" is stored as 30.0, "0" is refused as zero, "abc" as not a number. */
  lemma StepUserExamples(parseFloat: string -> Option<real>)
    requires parseFloat("30") == Some(30.0) && parseFloat("0") == Some(0.0) && parseFloat("abc") == None
    ensures StepUser(Some("30"), parseFloat) == OptionsEntry(Title, 30.0)
    ensures StepUser(Some("0"), parseFloat) == OptionsForm(map[UpdatePoolingField := InvalidZero])
    ensures StepUser(Some("abc"), parseFloat) == OptionsForm(map[UpdatePoolingField := InvalidValue])
  {
  }
}
