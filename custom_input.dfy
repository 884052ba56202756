/** The custom-answer input of src/hooks/use-custom-input.ts: a text value
    and an open flag, two state cells every operation updates. */
module CustomInput {
  import opened Common

  /** What `submit` returns for a value: nothing when it trims to the empty
      string, the trimmed text otherwise. */
  function Submitted(value: string): Option<string> {
    if Trim(value) == "" then None else Some(Trim(value))
  }

  /** A submitted answer is never empty and has no surrounding white space. */
  lemma SubmittedIsTrimmed(value: string)
    ensures Submitted(value).Some? ==> Submitted(value).value != "" && Trim(Submitted(value).value) == Submitted(value).value
  {
    TrimUnchanged(Trim(value));
  }

  /** A value that already has no surrounding white space is submitted as it is. */
  lemma SubmittedKeepsTrimmedValue(value: string)
    requires value != "" && !IsJsSpace(value[0]) && !IsJsSpace(value[|value| - 1])
    ensures Submitted(value) == Some(value)
  {
    TrimUnchanged(value);
  }

  /** A value of white space only submits nothing. */
  lemma AllSpaceSubmitsNothing(value: string)
    requires forall i :: 0 <= i < |value| ==> IsJsSpace(value[i])
    ensures Submitted(value).None?
  {
    TrimOfAllSpace(value);
  }

  class CustomInputState {
    var value: string
    var isOpen: bool

    constructor ()
      ensures value == "" && !isOpen
    {
      value := "";
      isOpen := false;
    }

    method SetValue(v: string)
      modifies this
      ensures value == v && isOpen == old(isOpen)
    {
      value := v;
    }

    /** `open` leaves the value as it is. */
    method Open()
      modifies this
      ensures isOpen && value == old(value)
    {
      isOpen := true;
    }

    method Close()
      modifies this
      ensures !isOpen && value == ""
    {
      isOpen := false;
      value := "";
    }

    /** `submit`: on an all-white-space value nothing changes; otherwise the
        trimmed value is returned and the input is emptied and closed. */
    method Submit() returns (r: Option<string>)
      modifies this
      ensures r == Submitted(old(value))
      ensures r.None? ==> value == old(value) && isOpen == old(isOpen)
      ensures r.Some? ==> value == "" && !isOpen
    {
      var trimmed := Trim(value);
      if trimmed == "" {
        return None;
      }
      value := "";
      isOpen := false;
      return Some(trimmed);
    }

    method Reset()
      modifies this
      ensures !isOpen && value == ""
    {
      value := "";
      isOpen := false;
    }
  }
}
