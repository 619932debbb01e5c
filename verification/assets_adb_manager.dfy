/**
  * The older copy of the shell channel (src/assets/js/adbManager.js): the
  * same slot and formatter, but the slot starts out null, there is one
  * spawner (the none protocol), and without a device the runner returns
  * undefined rather than "".
  *
  * formatSize is the same function in both copies; it is defined once, in
  * the AdbManager module.
  */
module AssetsAdbManager {
  import opened Util
  import Newer = AdbManager

  /** A connected device: what its subprocess service prints for a
      command, `None` when spawning or reading throws. */
  datatype Device = Device(spawn: string -> Option<string>)

  /** executeCommand for the given slot: undefined (None) without a device,
      "" when the command throws, else the output. */
  function Execute(instance: Option<Device>, command: string): (output: Option<string>)
    ensures output.None? <==> instance.None?
    ensures instance.Some? && instance.value.spawn(command).None? ==> output == Some("")
    ensures instance.Some? && instance.value.spawn(command).Some? ==> output == instance.value.spawn(command)
  {
    match instance
    case None => None
    case Some(device) =>
      match device.spawn(command)
      case Some(text) => Some(text)
      case None => Some("")
  }

  /** The module-level `adbInstance` and the functions around it. */
  class AdbManager {
    var adbInstance: Option<Device>

    /** `let adbInstance = null`. */
    constructor()
      ensures adbInstance.None?
    {
      adbInstance := None;
    }

    /** setAdbInstance. */
    method SetAdbInstance(instance: Option<Device>)
      modifies this
      ensures adbInstance == instance
    {
      adbInstance := instance;
    }

    /** getAdbInstance: what setAdbInstance last stored, null before. */
    method GetAdbInstance() returns (instance: Option<Device>)
      ensures instance == adbInstance
    {
      return adbInstance;
    }

    /** executeCommand: the output on the stored device; undefined when none
        is stored. */
    method ExecuteCommand(command: string) returns (output: Option<string>)
      ensures output == Execute(adbInstance, command)
      ensures output.None? <==> adbInstance.None?
    {
      if adbInstance.None? {
        return None;
      }
      var result := adbInstance.value.spawn(command);
      if result.None? {
        return Some("");
      }
      return result;
    }
  }

  /** The two copies agree on a connected device that has no shell protocol
      and spawns the same way, and differ without a device: "" in one,
      undefined in the other. */
  lemma CopiesAgreeWhenConnected(spawn: string -> Option<string>, shell: string -> Option<string>, command: string)
    ensures var newer := Newer.Execute(Some(Newer.Device(false, shell, spawn)), command);
            Execute(Some(Device(spawn)), command) == Some(newer)
    ensures Newer.Execute(None, command) == "" && Execute(None, command).None?
  {
  }
}
