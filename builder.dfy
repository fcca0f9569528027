/** The fluent builder of BuilderMethod.cpp: a `ComputerBuilder` whose setters
    overwrite one field each, a validating `build` that copies the fields into
    an immutable `Computer`, and the two fixed recipes of `ComputerDirector`. */
module Builder {
  import opened Wrappers
  import Decimal

  /** The C++ `int` of `setRAM` and `setStorage`. */
  newtype Int32 = x: int | -0x8000_0000 <= x < 0x8000_0000

  /** The product. Its fields are copied from the builder once and never
      changed afterwards, so it is a value. */
  datatype Computer = Computer(
    cpu: string,
    ram: Int32,
    storage: string,
    storageType: string,
    gpu: string,
    peripherals: seq<string>)

  /** The two `runtime_error`s `build` throws. */
  datatype BuildError = CpuNotSpecified | RamNotSpecified

  function Message(e: BuildError): string {
    match e
    case CpuNotSpecified => "CPU must be specified"
    case RamNotSpecified => "RAM must be specified"
  }

  /** The check `build` makes before copying: the CPU first, then the RAM. */
  function Validate(c: Computer): (r: Result<Computer, BuildError>)
    ensures r.Success? <==> c.cpu != [] && c.ram != 0
    ensures r.Success? ==> r.value == c
    ensures c.cpu == [] ==> r == Failure(CpuNotSpecified)
    ensures c.cpu != [] && c.ram == 0 ==> r == Failure(RamNotSpecified)
    ensures c.cpu == [] ==> Message(r.error) == "CPU must be specified"
    ensures c.cpu != [] && c.ram == 0 ==> Message(r.error) == "RAM must be specified"
  {
    if c.cpu == [] then Failure(CpuNotSpecified)
    else if c.ram == 0 then Failure(RamNotSpecified)
    else Success(c)
  }

  /** What `showSpecs` prints on its GPU line: the GPU, or "None" when empty. */
  function GpuLabel(c: Computer): (shown: string)
    ensures shown != []
    ensures c.gpu != [] ==> shown == c.gpu
    ensures c.gpu == [] ==> shown == "None"
  {
    if c.gpu == [] then "None" else c.gpu
  }

  /** The fields of a builder nobody has configured yet. */
  const Unconfigured := Computer("", 0, "", "", "", [])

  /** A builder on which neither the CPU nor the RAM was set cannot build. */
  lemma UnconfiguredFails(c: Computer)
    requires c.cpu == Unconfigured.cpu || c.ram == Unconfigured.ram
    ensures Validate(c).Failure?
  {
  }

  class ComputerBuilder {
    var cpu: string
    var ram: Int32
    var storage: string
    var storageType: string
    var gpu: string
    var peripherals: seq<string>

    /** The builder's fields, as the `Computer` they would be copied into. */
    function Fields(): Computer
      reads this
    {
      Computer(cpu, ram, storage, storageType, gpu, peripherals)
    }

    /** `ComputerBuilder::create()`: empty strings, RAM 0, no peripherals. */
    constructor Create()
      ensures Fields() == Unconfigured
    {
      cpu, ram, storage, storageType, gpu, peripherals := "", 0, "", "", "", [];
    }

    method SetCpu(cpu: string)
      modifies this
      ensures Fields() == old(Fields()).(cpu := cpu)
    {
      this.cpu := cpu;
    }

    method SetRam(ram: Int32)
      modifies this
      ensures Fields() == old(Fields()).(ram := ram)
    {
      this.ram := ram;
    }

    /** Stores the size as its decimal rendering and the type verbatim. */
    method SetStorage(storageSize: Int32, storageType: string)
      modifies this
      ensures Fields() == old(Fields()).(storage := Decimal.IntToString(storageSize as int),
                                         storageType := storageType)
    {
      storage := Decimal.IntToString(storageSize as int);
      this.storageType := storageType;
    }

    method SetGpu(gpu: string)
      modifies this
      ensures Fields() == old(Fields()).(gpu := gpu)
    {
      this.gpu := gpu;
    }

    /** Appends, keeping call order and duplicates. */
    method AddPeripheral(peripheral: string)
      modifies this
      ensures Fields() == old(Fields()).(peripherals := old(peripherals) + [peripheral])
    {
      peripherals := peripherals + [peripheral];
    }

    /** `build`: fails on an empty CPU, then on RAM 0; otherwise every field is
        copied into the product. The builder is left as it was. */
    method Build() returns (r: Result<Computer, BuildError>)
      ensures r == Validate(Fields())
    {
      if cpu == [] {
        return Failure(CpuNotSpecified);
      }
      if ram == 0 {
        return Failure(RamNotSpecified);
      }
      r := Success(Computer(cpu, ram, storage, storageType, gpu, peripherals));
    }
  }

  /** The custom machine the driver assembles by hand. */
  method BuildCustomComputer() returns (r: Result<Computer, BuildError>)
    ensures r == Success(Computer("AMD Ryzen 7", 16, "512", "NVMe SSD", "AMD Radeon RX 6700",
                                  ["Wireless Keyboard", "Bluetooth Mouse"]))
  {
    var b := new ComputerBuilder.Create();
    b.SetCpu("AMD Ryzen 7");
    b.SetRam(16);
    b.SetStorage(512, "NVMe SSD");
    b.SetGpu("AMD Radeon RX 6700");
    b.AddPeripheral("Wireless Keyboard");
    b.AddPeripheral("Bluetooth Mouse");
    assert Decimal.IntToString(512) == "512";
    assert b.peripherals == ["Wireless Keyboard", "Bluetooth Mouse"];
    r := b.Build();
  }

  /** `ComputerDirector::buildGamingComputer`. */
  method BuildGamingComputer() returns (r: Result<Computer, BuildError>)
    ensures r == Success(Computer("Intel Core i9", 32, "1000", "SSD", "NVIDIA RTX 4090",
                                  ["Mechanical Keyboard", "Gaming Mouse", "Gaming Headset"]))
  {
    var b := new ComputerBuilder.Create();
    b.SetCpu("Intel Core i9");
    b.SetRam(32);
    b.SetStorage(1000, "SSD");
    b.SetGpu("NVIDIA RTX 4090");
    b.AddPeripheral("Mechanical Keyboard");
    b.AddPeripheral("Gaming Mouse");
    b.AddPeripheral("Gaming Headset");
    assert Decimal.IntToString(1000) == "1000";
    assert b.peripherals == ["Mechanical Keyboard", "Gaming Mouse", "Gaming Headset"];
    r := b.Build();
  }

  /** `ComputerDirector::buildOfficeComputer`: no GPU is set, so its GPU line
      reads "None". */
  method BuildOfficeComputer() returns (r: Result<Computer, BuildError>)
    ensures r == Success(Computer("Intel Core i5", 16, "512", "SSD", "",
                                  ["Ergonomic Keyboard", "Wireless Mouse"]))
    ensures r.Success? && GpuLabel(r.value) == "None"
  {
    var b := new ComputerBuilder.Create();
    b.SetCpu("Intel Core i5");
    b.SetRam(16);
    b.SetStorage(512, "SSD");
    b.AddPeripheral("Ergonomic Keyboard");
    b.AddPeripheral("Wireless Mouse");
    assert Decimal.IntToString(512) == "512";
    assert b.peripherals == ["Ergonomic Keyboard", "Wireless Mouse"];
    r := b.Build();
  }
}
