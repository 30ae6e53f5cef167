/**
 * The add-device form: two text fields, an inline error message, and the
 * validation run when "Add" is pressed. The checks run in a fixed order:
 * blank id, then blank name, then an id that does not parse as a float.
 * Whether a string parses as a float (Kotlin's `toFloat`) is a parameter.
 */
module DeviceForm {
  import opened Wrappers
  import opened Devices

  const IdRequired: string := "Device ID is required."
  const NameRequired: string := "Device Name is required."
  const IdNotANumber: string := "Device ID must be a valid number."

  /**
   * Kotlin's `Char.isWhitespace` on the JVM: Java's `Character.isWhitespace`
   * or `Character.isSpaceChar` (the controls U+0009..U+000D and U+001C..U+001F,
   * and the space, line and paragraph separators).
   */
  predicate IsWhitespace(c: char) {
    ('\t' <= c <= '\r') || ('\U{1C}' <= c <= ' ')
    || c == '\U{A0}' || c == '\U{1680}' || ('\U{2000}' <= c <= '\U{200A}')
    || c == '\U{2028}' || c == '\U{2029}' || c == '\U{202F}' || c == '\U{205F}' || c == '\U{3000}'
  }

  /** Kotlin's `isBlank`: empty, or whitespace only. */
  predicate IsBlank(s: string) {
    forall i | 0 <= i < |s| :: IsWhitespace(s[i])
  }

  /** What pressing "Add" leads to: an error message shown, or `onAddDevice` called with the device. */
  datatype Verdict = Rejected(message: string) | Accepted(device: MonitoringDevice)

  /** The `when` run by the "Add" button. */
  function Validate(id: string, name: string, parsesAsFloat: string -> bool): (v: Verdict)
    ensures v.Accepted? <==> !IsBlank(id) && !IsBlank(name) && parsesAsFloat(id)
    ensures v.Accepted? ==> v.device == MonitoringDevice(id, name)
    ensures v == Rejected(IdRequired) <==> IsBlank(id)
    ensures v == Rejected(NameRequired) <==> !IsBlank(id) && IsBlank(name)
    ensures v == Rejected(IdNotANumber) <==> !IsBlank(id) && !IsBlank(name) && !parsesAsFloat(id)
    ensures v.Rejected? ==> v.message != ""
  {
    if IsBlank(id) then Rejected(IdRequired)
    else if IsBlank(name) then Rejected(NameRequired)
    else if !parsesAsFloat(id) then Rejected(IdNotANumber)
    else Accepted(MonitoringDevice(id, name))
  }

  /** The name is checked before the id is checked to be a number: a non-numeric id with a blank name reports the name. */
  lemma NameCheckedBeforeNumber(parsesAsFloat: string -> bool)
    requires !parsesAsFloat("abc")
    ensures Validate("abc", "", parsesAsFloat) == Rejected(NameRequired)
    ensures Validate("abc", "Kitchen", parsesAsFloat) == Rejected(IdNotANumber)
  {
    assert !IsWhitespace("abc"[0]);
    assert !IsWhitespace("Kitchen"[0]);
  }

  /** An empty or whitespace-only id is refused whatever the name; a numeric id with a name is accepted untrimmed. */
  lemma ExampleInputs(parsesAsFloat: string -> bool, name: string)
    requires parsesAsFloat("3.5") && parsesAsFloat(" 3.5")
    ensures Validate("", name, parsesAsFloat) == Rejected(IdRequired)
    ensures Validate(" \t", name, parsesAsFloat) == Rejected(IdRequired)
    ensures Validate("3.5", "Living Room", parsesAsFloat).Accepted?
    ensures Validate(" 3.5", "Living Room", parsesAsFloat) == Accepted(MonitoringDevice(" 3.5", "Living Room"))
  {
    assert !IsWhitespace("3.5"[0]);
    assert !IsWhitespace(" 3.5"[1]);
    assert !IsWhitespace("Living Room"[0]);
  }

  /** The form's state: the two fields and the error message shown under them. */
  class AddDeviceForm {
    var deviceId: string
    var deviceName: string
    var errorMessage: string
    /** Whether Kotlin's `toFloat` accepts a string (Java's float grammar). */
    const parsesAsFloat: string -> bool

    /** An error on display is always the verdict on the fields as they stand now. */
    ghost predicate Valid()
      reads this
    {
      errorMessage == "" || Validate(deviceId, deviceName, parsesAsFloat) == Rejected(errorMessage)
    }

    constructor (parsesAsFloat: string -> bool)
      ensures Valid()
      ensures deviceId == "" && deviceName == "" && errorMessage == ""
      ensures this.parsesAsFloat == parsesAsFloat
    {
      deviceId, deviceName, errorMessage := "", "", "";
      this.parsesAsFloat := parsesAsFloat;
    }

    /** Typing in the id field replaces the id and clears the error. */
    method OnIdChange(text: string)
      modifies this
      ensures Valid()
      ensures deviceId == text && deviceName == old(deviceName) && errorMessage == ""
    {
      deviceId := text;
      errorMessage := "";
    }

    /** Typing in the name field replaces the name and clears the error. */
    method OnNameChange(text: string)
      modifies this
      ensures Valid()
      ensures deviceName == text && deviceId == old(deviceId) && errorMessage == ""
    {
      deviceName := text;
      errorMessage := "";
    }

    /**
     * The "Add" button. `added` is the call made to `onAddDevice`, if any:
     * exactly one call with the untrimmed fields when they pass, none otherwise.
     */
    method OnAddClick() returns (added: Option<MonitoringDevice>)
      requires Valid()
      modifies this`errorMessage
      ensures Valid()
      ensures match Validate(deviceId, deviceName, parsesAsFloat)
              case Accepted(d) => added == Some(d) && errorMessage == ""
              case Rejected(m) => added == None && errorMessage == m
    {
      added := None;
      if IsBlank(deviceId) {
        errorMessage := IdRequired;
      } else if IsBlank(deviceName) {
        errorMessage := NameRequired;
      } else if !parsesAsFloat(deviceId) {
        errorMessage := IdNotANumber;
      } else {
        added := Some(MonitoringDevice(deviceId, deviceName));
      }
    }
  }
}
