/**
 * What the platform positioning service hands to the screens: the status of a
 * foreground-permission request and the coordinates of a position fix.
 */
module Positioning {
  import opened Wrappers

  /** The `coords` part of a position fix; only latitude and longitude are used. */
  datatype Coords = Coords(latitude: real, longitude: real)

  /** The only permission status the screens accept. */
  const Granted: string := "granted"

  /** The fixed text both screens store in `errorMsg` when permission is refused. */
  const DenialText: string := "Permission to access location was denied"

  /** JavaScript truthiness of an optional string: `null` and `''` are falsy. */
  predicate Truthy(s: Option<string>)
  {
    s.Some? && s.value != ""
  }
}
