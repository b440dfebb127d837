/**
 * Android `Bundle` and `Intent` extras as maps from key to a tagged value.
 * The typed getters return the absent/default value when the key is missing
 * or holds a value of another kind, as Android's getters do.
 */
module Bundles {
  import opened Wrappers
  import opened Errors
  import opened Crypto

  /** A Kotlin `Long`. */
  type int64 = x: int | -0x8000_0000_0000_0000 <= x < 0x8000_0000_0000_0000

  datatype Extra =
    | Str(s: string)
    | Long(n: int64)
    | Bool(b: bool)
    | Bytes(blob: Blob)
    | StrArray(items: seq<string>)     // putExtra(key, Array<String>)
    | StrList(items: seq<string>)      // putStringArrayList / ArrayList<String>
    | Exc(exception: Exception)        // putSerializable(key, exception)
    | Receiver(handle: nat)            // a parcelled ResultReceiver

  type Bundle = map<string, Extra>

  datatype ComponentName = ComponentName(packageName: string, className: string)

  datatype Intent = Intent(action: Option<string>, component: Option<ComponentName>, extras: Bundle)

  /** What `ResultReceiver.send(code, bundle)` transmits. */
  datatype Reply = Reply(code: int, data: Bundle)

  function GetString(b: Bundle, key: string): Option<string>
  {
    if key in b && b[key].Str? then Some(b[key].s) else None
  }

  function GetLong(b: Bundle, key: string, default: int64): int64
  {
    if key in b && b[key].Long? then b[key].n else default
  }

  function GetBoolean(b: Bundle, key: string, default: bool): bool
  {
    if key in b && b[key].Bool? then b[key].b else default
  }

  function GetByteArray(b: Bundle, key: string): Option<Blob>
  {
    if key in b && b[key].Bytes? then Some(b[key].blob) else None
  }

  function GetStringArrayList(b: Bundle, key: string): Option<seq<string>>
  {
    if key in b && b[key].StrList? then Some(b[key].items) else None
  }

  /** `getSerializable(key) as? Exception` */
  function GetException(b: Bundle, key: string): Option<Exception>
  {
    if key in b && b[key].Exc? then Some(b[key].exception) else None
  }

  function GetReceiver(b: Bundle, key: string): Option<nat>
  {
    if key in b && b[key].Receiver? then Some(b[key].handle) else None
  }
}
