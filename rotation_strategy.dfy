/**
 * strategy/rotation_strategy.go: six strategies, each writing one value to
 * one system setting.
 */
module RotationStrategy {
  import opened Wrappers
  import opened ExecPolicy
  import opened Adb

  datatype Rotation = Enable | Disable | Portrait | Landscape | PortraitReverse | LandscapeReverse

  /** The system setting each strategy writes, and the value. */
  function Setting(r: Rotation): (string, nat) {
    match r
    case Enable => ("accelerometer_rotation", 1)
    case Disable => ("accelerometer_rotation", 0)
    case Portrait => ("user_rotation", 0)
    case Landscape => ("user_rotation", 1)
    case PortraitReverse => ("user_rotation", 2)
    case LandscapeReverse => ("user_rotation", 3)
  }

  /** Auto-rotation is switched by `accelerometer_rotation`, a fixed orientation by `user_rotation` 0 to 3. */
  lemma SettingTable()
    ensures Setting(Enable) == ("accelerometer_rotation", 1) && Setting(Disable) == ("accelerometer_rotation", 0)
    ensures forall r :: Setting(r).0 == "accelerometer_rotation" <==> r == Enable || r == Disable
    ensures forall r :: Setting(r).0 == "user_rotation" ==> Setting(r).1 <= 3
  {
  }

  /** No two strategies write the same setting and value. */
  lemma SettingInjective(a: Rotation, b: Rotation)
    requires Setting(a) == Setting(b)
    ensures a == b
  {
  }

  /** The strategy's `Run`: the executor's error is returned unchanged. */
  method RunRotation(h: Host, r: Rotation) returns (err: Option<Error>)
    modifies h`issued, h`exited
    ensures old(h.exited) ==> unchanged(h) && err == None
    ensures !old(h.exited) ==>
      var cmd := SettingsPut(Setting(r).0, Setting(r).1);
      && h.issued == old(h.issued) + [cmd]
      && h.exited == old(h.NextStrict()).Fatal?
      && err == ErrorOf(old(h.NextStrict()), cmd)
  {
    var (key, value) := Setting(r);
    err := RunCommand(h, SettingsPut(key, value));
  }
}
