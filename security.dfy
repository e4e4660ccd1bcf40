/**
 * The super-admin security page (dashboard/admin/security/page.tsx): three
 * platform flags, each flipped by its switch.
 */
module Security {

  /** The `settings` state. */
  datatype Settings = Settings(registrationsOpen: bool, maintenanceMode: bool, forcePasswordReset: bool)

  /** Registrations open, maintenance off, no forced password reset. */
  const InitialSettings := Settings(true, false, false)

  /** `keyof typeof settings`. */
  datatype SettingKey = RegistrationsOpen | MaintenanceMode | ForcePasswordReset

  /** `settings[key]`. */
  function Get(s: Settings, key: SettingKey): bool {
    match key
    case RegistrationsOpen => s.registrationsOpen
    case MaintenanceMode => s.maintenanceMode
    case ForcePasswordReset => s.forcePasswordReset
  }

  /** `{ ...prev, [key]: !prev[key] }`. */
  function Flipped(s: Settings, key: SettingKey): (r: Settings)
    ensures Get(r, key) == !Get(s, key)
    ensures forall k | k != key :: Get(r, k) == Get(s, k)
  {
    match key
    case RegistrationsOpen => s.(registrationsOpen := !s.registrationsOpen)
    case MaintenanceMode => s.(maintenanceMode := !s.maintenanceMode)
    case ForcePasswordReset => s.(forcePasswordReset := !s.forcePasswordReset)
  }

  /** Settings that agree on every key are the same settings. */
  lemma SettingsExtensional(s: Settings, t: Settings)
    requires forall k :: Get(s, k) == Get(t, k)
    ensures s == t
  {
    assert Get(s, RegistrationsOpen) == Get(t, RegistrationsOpen);
    assert Get(s, MaintenanceMode) == Get(t, MaintenanceMode);
    assert Get(s, ForcePasswordReset) == Get(t, ForcePasswordReset);
  }

  /** Flipping the same switch twice restores the settings. */
  lemma FlipTwice(s: Settings, key: SettingKey)
    ensures Flipped(Flipped(s, key), key) == s
  {
    SettingsExtensional(Flipped(Flipped(s, key), key), s);
  }

  /** Flipping two switches gives the same settings in either order. */
  lemma FlipCommutes(s: Settings, a: SettingKey, b: SettingKey)
    ensures Flipped(Flipped(s, a), b) == Flipped(Flipped(s, b), a)
  {
    SettingsExtensional(Flipped(Flipped(s, a), b), Flipped(Flipped(s, b), a));
  }

  /** The switch caption. */
  function SwitchCaption(value: bool): (caption: string)
    ensures caption == "ON" <==> value
    ensures caption in {"ON", "OFF"}
  {
    if value then "ON" else "OFF"
  }

  /** The page's `settings` state. */
  class SecurityPage {
    var settings: Settings

    constructor ()
      ensures settings == InitialSettings
    {
      settings := InitialSettings;
    }

    /** `toggle(key)`. */
    method Toggle(key: SettingKey)
      modifies this
      ensures settings == Flipped(old(settings), key)
    {
      settings := Flipped(settings, key);
    }
  }
}
