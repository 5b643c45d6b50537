/**
 * The validation rule of the add-group modal. The members field starts as
 * the empty string and, once typed into, holds `Number(e.target.value)`.
 */
module AddGroup {
  import opened Common
  import opened Text

  /** The `members` field of the form. */
  datatype MembersField = Blank | Num(value: real) | NaN

  /** `Number(members)`: the empty string reads as 0, NaN as `None`. */
  function AsNumber(m: MembersField): Option<real>
  {
    match m
    case Blank => Some(0.0)
    case Num(x) => Some(x)
    case NaN => None
  }

  /** `!name.trim() || isNaN(members) || members <= 0`. */
  predicate Rejected(name: string, members: MembersField)
  {
    Trim(name) == "" || AsNumber(members).None? || AsNumber(members).value <= 0.0
  }

  /**
   * A group is accepted exactly when its name has a non-space character and
   * a positive number of members was typed; an untouched members field is
   * rejected like zero.
   */
  lemma AcceptedIff(name: string, members: MembersField)
    ensures !Rejected(name, members) <==>
      (exists i :: 0 <= i < |name| && !IsSpace(name[i])) && members.Num? && members.value > 0.0
  {
    TrimEmpty(name);
  }
}
