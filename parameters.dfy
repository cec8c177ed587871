/**
 * The parameter bag of a protocol request (a string-to-string dictionary),
 * the presence test every builder uses on caller-supplied values, and the
 * configuration errors that the builders raise before anything is sent.
 */
module Parameters {
  import opened Wrappers

  type Bag = map<string, string>

  /** The characters .NET's char.IsWhiteSpace accepts (Unicode Zs, Zl, Zp, and the controls 9-13, 0x85). */
  predicate IsWhiteSpace(c: char) {
    || c == ' ' || c == '\t' || c == '\n' || c == '\U{B}' || c == '\U{C}' || c == '\r'
    || c == '\U{85}' || c == '\U{A0}' || c == '\U{1680}'
    || ('\U{2000}' <= c <= '\U{200A}')
    || c == '\U{2028}' || c == '\U{2029}' || c == '\U{202F}' || c == '\U{205F}' || c == '\U{3000}'
  }

  /** True when no character of `s` is visible; the empty string qualifies. */
  function AllWhiteSpace(s: string): (r: bool)
    ensures r <==> forall i :: 0 <= i < |s| ==> IsWhiteSpace(s[i])
  {
    if s == [] then true else IsWhiteSpace(s[0]) && AllWhiteSpace(s[1..])
  }

  /** `IsMissing`: null, empty or white space only. */
  function IsMissing(value: Option<string>): (r: bool)
    ensures r <==> value.None? || forall i :: 0 <= i < |value.value| ==> IsWhiteSpace(value.value[i])
  {
    value.None? || AllWhiteSpace(value.value)
  }

  /** `IsPresent`: the negation of IsMissing, so a present value has a visible character. */
  function IsPresent(value: Option<string>): (r: bool)
    ensures r <==> value.Some? && exists i :: 0 <= i < |value.value| && !IsWhiteSpace(value.value[i])
  {
    !IsMissing(value)
  }

  /** The exceptions a call raises before anything is sent: building, Prepare and the visitor. */
  datatype ConfigError =
    | MissingParameter(name: string)    // a required value is missing (ArgumentException)
    | DuplicateParameter(name: string)  // the key is already in the bag
    | MissingClientId                   // InvalidOperationException "client_id is missing"
    | MissingToken                      // ArgumentNullException for request.Token
    | NullParameters                    // ArgumentNullException for a null dictionary
    | CredentialsFailed(reason: string) // raised by the client-credential step
    | PrepareFailed(reason: string)     // raised by ProtocolRequest.Prepare
    | VisitorFailed(reason: string)     // raised by the caller's request visitor

  /** The bag after a successful `AddRequired(key, value, allowEmpty)`, or the error it raises. */
  function WithRequired(bag: Bag, key: string, value: Option<string>, allowEmpty: bool): (r: Result<Bag, ConfigError>)
    ensures r.Ok? <==> (IsPresent(value) || allowEmpty) && key !in bag
    ensures r.Err? ==> r.error == if IsPresent(value) || allowEmpty then DuplicateParameter(key) else MissingParameter(key)
    ensures r.Ok? ==> r.value.Keys == bag.Keys + {key}
    ensures r.Ok? ==> r.value[key] == if IsPresent(value) then value.value else ""
    ensures r.Ok? ==> forall k :: k in bag ==> r.value[k] == bag[k]
  {
    if IsPresent(value) then
      if key in bag then Err(DuplicateParameter(key)) else Ok(bag[key := value.value])
    else if allowEmpty then
      if key in bag then Err(DuplicateParameter(key)) else Ok(bag[key := ""])
    else
      Err(MissingParameter(key))
  }

  /** The bag after a successful `AddOptional(key, value)`, or the error it raises. */
  function WithOptional(bag: Bag, key: string, value: Option<string>): (r: Result<Bag, ConfigError>)
    ensures IsMissing(value) ==> r == Ok(bag)
    ensures IsPresent(value) ==> (r.Ok? <==> key !in bag)
    ensures r.Err? ==> r.error == DuplicateParameter(key)
    ensures r.Ok? ==> r.value.Keys == bag.Keys + (if IsPresent(value) then {key} else {})
    ensures r.Ok? && IsPresent(value) ==> r.value[key] == value.value
    ensures r.Ok? ==> forall k :: k in bag ==> r.value[k] == bag[k]
  {
    if IsMissing(value) then Ok(bag)
    else if key in bag then Err(DuplicateParameter(key))
    else Ok(bag[key := value.value])
  }

  /** The error a Result carries, if any (the exception that escapes). */
  function Raised<T>(r: Result<T, ConfigError>): Option<ConfigError> {
    if r.Err? then Some(r.error) else None
  }

  /** A mutable parameter dictionary; several requests may share one. */
  class ParameterBag {
    var entries: Bag

    constructor (entries: Bag)
      ensures this.entries == entries
    {
      this.entries := entries;
    }

    method AddRequired(key: string, value: Option<string>, allowEmpty: bool) returns (thrown: Option<ConfigError>)
      modifies this
      ensures thrown == Raised(WithRequired(old(entries), key, value, allowEmpty))
      ensures entries == if thrown.None? then WithRequired(old(entries), key, value, allowEmpty).value else old(entries)
    {
      if IsPresent(value) {
        if key in entries {
          return Some(DuplicateParameter(key));
        }
        entries := entries[key := value.value];
      } else if allowEmpty {
        if key in entries {
          return Some(DuplicateParameter(key));
        }
        entries := entries[key := ""];
      } else {
        return Some(MissingParameter(key));
      }
      thrown := None;
    }

    method AddOptional(key: string, value: Option<string>) returns (thrown: Option<ConfigError>)
      modifies this
      ensures thrown == Raised(WithOptional(old(entries), key, value))
      ensures entries == if thrown.None? then WithOptional(old(entries), key, value).value else old(entries)
    {
      thrown := None;
      if IsPresent(value) {
        if key in entries {
          return Some(DuplicateParameter(key));
        }
        entries := entries[key := value.value];
      }
    }
  }
}
