/**
  * The shell channel of the application (src/utils/adbManager.js): a
  * module-level slot holding the connected device, the command runner that
  * every collector goes through, and the byte-size formatter.
  *
  * A device is what the slot may hold. What its subprocess service prints
  * for a command is an oracle; `None` stands for a spawn or a read that
  * throws. The stream reading loop and the text decoder are not modelled:
  * the oracle gives the joined output.
  */
module AdbManager {
  import opened Util

  /** A connected device: whether it offers the shell protocol, and what
      each of its two spawners prints for a command. */
  datatype Device = Device(shellProtocolSupported: bool,
                           shellProtocol: string -> Option<string>,
                           noneProtocol: string -> Option<string>)

  /** The spawner executeCommand uses on a device: the shell protocol when
      the device supports it, else the none protocol. */
  function Spawner(device: Device): string -> Option<string>
  {
    if device.shellProtocolSupported then device.shellProtocol else device.noneProtocol
  }

  /** executeCommand for the given slot: nothing connected gives "", so
      does a command that throws; otherwise the shell-protocol output when
      the device supports it, else the none-protocol output. */
  function Execute(instance: Option<Device>, command: string): (output: string)
    ensures instance.None? ==> output == ""
    ensures instance.Some? && instance.value.shellProtocolSupported && instance.value.shellProtocol(command).Some?
            ==> output == instance.value.shellProtocol(command).value
    ensures instance.Some? && !instance.value.shellProtocolSupported && instance.value.noneProtocol(command).Some?
            ==> output == instance.value.noneProtocol(command).value
    ensures instance.Some? && Spawner(instance.value)(command).None? ==> output == ""
  {
    match instance
    case None => ""
    case Some(device) =>
      var result := if device.shellProtocolSupported then device.shellProtocol(command) else device.noneProtocol(command);
      match result
      case Some(text) => text
      case None => ""
  }

  /** The module-level `adbInstance` and the functions around it. */
  class AdbManager {
    var adbInstance: Option<Device>

    /** `let adbInstance`: undefined until a device is set. */
    constructor()
      ensures adbInstance.None?
    {
      adbInstance := None;
    }

    /** setAdbInstance. */
    method SetAdbInstance(instance: Option<Device>)
      modifies this
      ensures adbInstance == instance
    {
      adbInstance := instance;
    }

    /** getAdbInstance: what setAdbInstance last stored. */
    method GetAdbInstance() returns (instance: Option<Device>)
      ensures instance == adbInstance
    {
      return adbInstance;
    }

    /** executeCommand: the output of the command on the stored device, ""
        when none is stored. */
    method ExecuteCommand(command: string) returns (output: string)
      ensures output == Execute(adbInstance, command)
      ensures adbInstance.None? ==> output == ""
    {
      if adbInstance.None? {
        return "";
      }
      var device := adbInstance.value;
      var result: Option<string>;
      if device.shellProtocolSupported {
        result := device.shellProtocol(command);
      } else {
        result := device.noneProtocol(command);
      }
      if result.None? {
        return "";
      }
      return result.value;
    }
  }

  /** A device whose spawner fails answers like no device: the collectors
      see "" either way. The other spawner is never tried. */
  lemma FailureLooksDisconnected(device: Device, command: string)
    requires Spawner(device)(command).None?
    ensures Execute(Some(device), command) == Execute(None, command) == ""
  {
  }

  // ---------------------------------------------------------------------
  // formatSize

  datatype Unit = B | KB | MB | GB

  /** A size as formatSize writes it: the number and the unit. */
  datatype Size = Size(value: real, unit: Unit)

  function Scale(u: Unit): (r: real)
    ensures r >= 1.0
  {
    match u
    case B => 1.0
    case KB => 1024.0
    case MB => 1024.0 * 1024.0
    case GB => 1024.0 * 1024.0 * 1024.0
  }

  /** formatSize: bytes below 1024, else the largest of KB, MB and GB the
      size reaches, as the quotient to two decimals (toFixed(2)). */
  function FormatSize(size: real): (r: Size)
    ensures r.unit == B <==> size < 1024.0
    ensures r.unit == KB <==> 1024.0 <= size < 1024.0 * 1024.0
    ensures r.unit == MB <==> 1024.0 * 1024.0 <= size < 1024.0 * 1024.0 * 1024.0
    ensures r.unit == GB <==> 1024.0 * 1024.0 * 1024.0 <= size
    ensures r.unit == B ==> r.value == size
    ensures size / Scale(r.unit) - 0.005 <= r.value <= size / Scale(r.unit) + 0.005
  {
    if size < 1024.0 then Size(size, B)
    else if size < 1024.0 * 1024.0 then Size(ToFixed2(size / 1024.0), KB)
    else if size < 1024.0 * 1024.0 * 1024.0 then Size(ToFixed2(size / 1024.0 / 1024.0), MB)
    else Size(ToFixed2(size / 1024.0 / 1024.0 / 1024.0), GB)
  }

  /** Above bytes the number shown lies between 1 and 1024; the top end is
      reached when rounding carries 1023.995 and more up (1048575 bytes
      show as 1024.00 KB). */
  lemma ScaledSizeInRange(size: real)
    requires size >= 1024.0 && FormatSize(size).unit != GB
    ensures 1.0 <= FormatSize(size).value <= 1024.0
  {
    var u := FormatSize(size).unit;
    var x := size / Scale(u);
    assert 1.0 <= x < 1024.0;
    Round2Within(x, 100, 102400);
    assert ToFixed2(x) == Round2(x);
  }

  /** An example of the carry: one byte short of a megabyte is written as
      1024.00 KB, not 1023.99 KB. */
  lemma KilobyteCarry()
    ensures FormatSize(1048575.0) == Size(1024.0, KB)
  {
    assert 1048575.0 / 1024.0 * 100.0 == 102399.90234375;
    RoundOfInt(102400);
    assert Round(102399.90234375) == 102400;
  }
}
