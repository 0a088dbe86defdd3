/** The few pieces of the Android framework the SDK touches, as plain values:
    intents, their extras and flags, component names and result codes. */
module Android {
  import opened Common

  /** `Activity.RESULT_OK`. */
  const RESULT_OK: int32 := -1

  /** `Intent.FLAG_GRANT_READ_URI_PERMISSION` and `Intent.FLAG_GRANT_WRITE_URI_PERMISSION`. */
  const FLAG_GRANT_READ_URI_PERMISSION: bv32 := 0x0000_0001
  const FLAG_GRANT_WRITE_URI_PERMISSION: bv32 := 0x0000_0002

  /** An intent: its action, its data URI (kept as the string it was parsed from),
      its string extras (a `None` value is an extra explicitly set to null) and its flag word. */
  datatype Intent = Intent(
    action: Option<string>,
    data: Option<string>,
    extras: map<string, Option<string>>,
    flags: bv32)

  /** The `callingActivity` of an activity started for a result. */
  datatype ComponentName = ComponentName(packageName: string, className: string)

  /** An opaque reference to the activity a call is made from. */
  datatype ActivityRef = ActivityRef(id: nat)

  /** `Intent.getStringExtra`: null when the key is absent or bound to null. */
  function GetStringExtra(i: Intent, key: string): (v: Option<string>)
    ensures v.Some? ==> key in i.extras && i.extras[key] == v
    ensures key !in i.extras ==> v.None?
  {
    if key in i.extras then i.extras[key] else None
  }

  /** `Intent.putExtra(key, value)` for a (nullable) string value. */
  function PutExtra(i: Intent, key: string, value: Option<string>): (r: Intent)
    ensures GetStringExtra(r, key) == value
    ensures forall k :: k in i.extras && k != key ==> k in r.extras && r.extras[k] == i.extras[k]
    ensures forall k :: k in r.extras ==> k == key || k in i.extras
    ensures r.action == i.action && r.data == i.data && r.flags == i.flags
  {
    i.(extras := i.extras[key := value])
  }

  /** `Intent.removeFlags(mask)`: clears exactly the bits of `mask`. */
  function RemoveFlags(i: Intent, mask: bv32): (r: Intent)
    ensures r.flags & mask == 0
    ensures r.flags & !mask == i.flags & !mask
    ensures r.action == i.action && r.data == i.data && r.extras == i.extras
  {
    i.(flags := i.flags & !mask)
  }
}
