/**
 * The sample-processing state of the `LoopEnergy` client: the gas history,
 * the published rates, the two callback slots and the connection flags.
 * The socket.io event handlers are methods called with their payload; a
 * callback invocation is recorded in the ghost trace `calls`.
 */
module LoopEnergyClient {
  import opened Wrappers
  import opened GasRate
  import opened GasTracker

  /** A consumer function registered for updates, identified by a number. */
  type Callback = nat

  /** One invocation of a registered callback. */
  datatype Call = GasCall(gas: Callback) | ElecCall(elec: Callback)

  class LoopEnergy {
    const elecSerial: string
    const elecSecret: string
    const gasSerial: Option<string>
    const gasSecret: Option<string>

    var gasReading: Option<int>
    var gasDeviceTimestamp: Option<int>
    var gasKw: Option<real>
    var elecKw: Option<real>
    var gasOldTimestamp: Option<int>
    var gasOldReading: Option<int>

    var elecCallback: Option<Callback>
    var gasCallback: Option<Callback>

    var connectedOk: bool
    var threadExit: bool

    /** Every callback invocation so far, in order. */
    ghost var calls: seq<Call>

    /** The gas fields as one history value. */
    function Gas(): GasState
      reads this
    {
      GasState(gasReading, gasDeviceTimestamp, gasOldReading, gasOldTimestamp, gasKw)
    }

    predicate Valid()
      reads this
    {
      GasTracker.Valid(Gas())
    }

    constructor (elecSerial: string, elecSecret: string, gasSerial: Option<string>, gasSecret: Option<string>)
      ensures this.elecSerial == elecSerial && this.elecSecret == elecSecret
      ensures this.gasSerial == gasSerial && this.gasSecret == gasSecret
      ensures Gas() == Fresh && elecKw == None
      ensures elecCallback == None && gasCallback == None
      ensures !connectedOk && !threadExit && calls == []
      ensures Valid()
    {
      this.elecSerial := elecSerial;
      this.elecSecret := elecSecret;
      this.gasSerial := gasSerial;
      this.gasSecret := gasSecret;
      gasReading := None;
      gasDeviceTimestamp := None;
      gasKw := None;
      elecKw := None;
      gasOldTimestamp := None;
      gasOldReading := None;
      elecCallback := None;
      gasCallback := None;
      connectedOk := false;
      threadExit := false;
      calls := [];
    }

    /** The `gas_useage` property: the last published gas rate, if any. */
    function GasUseage(): (r: Option<real>)
      reads this
      ensures r == gasKw
      ensures Valid() && r.Some? ==> gasOldTimestamp.Some? && gasOldTimestamp != gasDeviceTimestamp
    {
      gasKw
    }

    /** The `electricity_useage` property. */
    function ElectricityUseage(): (r: Option<real>)
      reads this
      ensures r == elecKw
    {
      elecKw
    }

    /** The `init_ok` property: whether any telemetry event was ever received. */
    function InitOk(): (r: bool)
      reads this
      ensures r == connectedOk
    {
      connectedOk
    }

    /** Register (or, with `None`, clear) the gas callback; the last registration wins. */
    method SubscribeGas(callback: Option<Callback>)
      modifies this`gasCallback
      ensures gasCallback == callback
    {
      gasCallback := callback;
    }

    /** Register (or clear) the electricity callback; the last registration wins. */
    method SubscribeElecricity(callback: Option<Callback>)
      modifies this`elecCallback
      ensures elecCallback == callback
    {
      elecCallback := callback;
    }

    /** The `electric_realtime` handler: `inst` is in watts. */
    method UpdateElec(inst: real)
      modifies this`connectedOk, this`elecKw, this`calls
      ensures connectedOk
      ensures elecKw.Some? && elecKw.value * 1000.0 == inst
      ensures calls == old(calls) + if elecCallback.Some? then [ElecCall(elecCallback.value)] else []
    {
      connectedOk := true;
      elecKw := Some(inst / 1000.0);
      if elecCallback.Some? {
        calls := calls + [ElecCall(elecCallback.value)];
      }
    }

    /** The `gas_interval` handler. */
    method UpdateGas(arg: Sample)
      modifies this`connectedOk, this`gasReading, this`gasDeviceTimestamp, this`gasKw,
               this`gasOldTimestamp, this`gasOldReading, this`calls
      ensures connectedOk
      ensures Gas() == Ingest(old(Gas()), arg).next
      ensures calls == old(calls) +
        if Ingest(old(Gas()), arg).published && gasCallback.Some? then [GasCall(gasCallback.value)] else []
      ensures old(Valid()) ==> Valid()
    {
      connectedOk := true;
      var reading := arg.totalRegister;
      var deviceTimestamp := arg.deviceTimestamp;
      if Some(deviceTimestamp) == gasDeviceTimestamp {
        return;
      }

      gasOldTimestamp := gasDeviceTimestamp;
      gasDeviceTimestamp := Some(deviceTimestamp);

      gasOldReading := gasReading;
      gasReading := Some(reading);

      if gasOldTimestamp.None? {
        return;
      }
      if gasOldReading.None? {
        return;
      }
      var gasUsed := gasReading.value - gasOldReading.value;
      var period := PeriodHours(gasDeviceTimestamp.value - gasOldTimestamp.value);
      gasKw := Some(GasKw(gasUsed, period));
      if gasCallback.Some? {
        calls := calls + [GasCall(gasCallback.value)];
      }
    }

    /** The flag part of `terminate`: ask the event thread to stop. */
    method Terminate()
      modifies this`threadExit
      ensures threadExit
    {
      threadExit := true;
    }

    /**
     * `Namespace.on_disconnect`: ignored while exiting, a retry once any
     * telemetry has arrived, and termination when none ever did.
     */
    method OnDisconnect()
      modifies this`threadExit
      ensures threadExit == (old(threadExit) || !connectedOk)
    {
      if threadExit {
        return;
      }
      if connectedOk {
        return;
      }
      Terminate();
    }
  }

  /** A client session: the gas rate appears with the second distinct sample. */
  method GasSession()
  {
    var loop := new LoopEnergy("elec-serial", "elec-secret", Some("gas-serial"), Some("gas-secret"));
    loop.SubscribeGas(Some(7));
    loop.UpdateGas(Sample(12820, 1459348200));
    assert loop.GasUseage() == None && loop.calls == [];
    loop.UpdateGas(Sample(12820, 1459348200));
    assert loop.GasUseage() == None && loop.calls == [];
    loop.UpdateGas(Sample(12830, 1459351800));
    OneHourExample();
    assert loop.GasUseage() == Some(0.1111);
    assert loop.calls == [GasCall(7)];
    loop.OnDisconnect();
    assert !loop.threadExit;
  }

  /** An electricity reading of 1500 W is published as 1.5 kW and reported once. */
  method ElecSession()
  {
    var loop := new LoopEnergy("elec-serial", "elec-secret", None, None);
    loop.SubscribeElecricity(Some(3));
    loop.UpdateElec(1500.0);
    assert loop.ElectricityUseage() == Some(1.5) && loop.InitOk();
    assert loop.calls == [ElecCall(3)] && loop.Gas() == Fresh;
  }

  /** A session whose credentials are never accepted terminates on disconnect. */
  method RejectedSession()
  {
    var loop := new LoopEnergy("elec-serial", "wrong-secret", None, None);
    loop.SubscribeElecricity(Some(1));
    loop.OnDisconnect();
    assert loop.threadExit && !loop.InitOk() && loop.calls == [];
  }
}
