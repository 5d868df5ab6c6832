# pyloopenergy sample processing, modelled in Dafny

pyloopenergy is a client for the Loop Energy service. It receives
electricity and gas telemetry pushed over socket.io and publishes
the current rates in kW through accessors and callbacks. This project models
the sample-processing state of its `LoopEnergy` class:

- the two-slot gas history (current and previous register reading and device
  timestamp), its duplicate filter, and the rate
  `gas_kw = (11.11 * Δreading / Δhours) / 1000`;
- the electricity update `elec_kw = inst / 1000`;
- the callback slots, the `connected_ok` and `thread_exit` flags, `terminate`,
  and the decision taken by the disconnect handler.

Files:

- `wrappers.dfy`: `Option`, which stands for Python's `None`.
- `gas_rate.dfy` (module `GasRate`): the conversion constant and the rate formula.
- `gas_tracker.dfy` (module `GasTracker`): the gas history as a value.
  - `Ingest` is one call of `_update_gas`.
  - `Run` is a series of calls.
  - `Dedup` is the series with the samples the filter drops taken out.
  - Lemmas about these.
- `loop_energy.dfy` (module `LoopEnergyClient`): the class `LoopEnergy`.
  - It has the source's fields.
  - Its handler methods mutate those fields step by step, in the source's order, with the source's early returns.
  - Each method's `modifies` clause names the only fields it may change.
  - The ghost sequence `calls` records every callback invocation. A callback is a number that identifies the registered consumer function.
  - Two client methods, `GasSession` and `RejectedSession`, walk through a session using only the contracts.

`UpdateGas` shows that no period of zero hours can reach the division. `GasKw`
requires a non-zero period. The only thing that gives `UpdateGas` that fact is the
duplicate check that comes before it.

The code computes the first gas rate on the **second** distinct sample, not a
later one. It uses one fixed factor, with no meter-type or
calorific-value branch. The model follows the code.

## Model

| member | source | states |
|---|---|---|
| GasRate.PeriodHours | pyloopenergy/loop_energy.py:177 | the period in hours times 3600 is the timestamp difference in seconds; it is zero exactly when the difference is |
| GasRate.GasKw | pyloopenergy/loop_energy.py:176-178 | rate × period × 1000 = 11.11 × register delta (kW × h is energy); over a positive period the rate is negative exactly when the delta is (no clamping) and zero exactly when the delta is; a zero period is excluded |
| GasRate.GasKwOverSeconds | pyloopenergy/loop_energy.py:176-178 | rate × elapsed seconds = 39.996 × register delta, i.e. 11.11 × 3600 / 1000 |
| GasRate.OneHourExample | pyloopenergy/loop_energy.py:176-178 | ten register units over one hour (12820 to 12830) give 0.1111 kW |
| GasTracker.Ingest | pyloopenergy/loop_energy.py:159-181 | a sample repeating the stored timestamp changes nothing and publishes nothing; otherwise current shifts into previous, the sample becomes current and the two timestamps differ; a rate is published exactly when a previous sample exists after the shift, and it is GasKw of the reading delta over the timestamp delta, which is non-zero; without a publication the rate is kept; the history invariant is preserved |
| GasTracker.IngestTwice | pyloopenergy/loop_energy.py:162-164 | feeding the same sample twice in a row: the second call changes nothing and publishes nothing |
| GasTracker.Run | pyloopenergy/loop_energy.py:142-181 | a series of `_update_gas` calls publishes at most one rate per call and preserves the history invariant |
| GasTracker.RunFresh | pyloopenergy/loop_energy.py:48-181 | on a fresh client, samples with no repeated consecutive timestamps publish nothing for the first and one rate for each later sample; the history holds the last two samples and the rate is the one between them; with fewer than two samples no rate exists |
| GasTracker.Dedup | pyloopenergy/loop_energy.py:162-164 | the samples the duplicate filter keeps have no consecutive repeat, are no more than the input and end with the timestamp of the last input |
| GasTracker.RunDedup | pyloopenergy/loop_energy.py:162-170 | on a fresh client a series of samples leaves the same history and publication count as the same series with its duplicates removed |
| GasTracker.RunPublishedCount | pyloopenergy/loop_energy.py:162-181 | on a fresh client the number of published gas rates is the number of kept (non-duplicate) samples minus one |
| LoopEnergyClient.LoopEnergy.constructor | pyloopenergy/loop_energy.py:35-61 | credentials stored; all gas fields, `elec_kw` and both callbacks unset; both flags false; no callback invoked |
| LoopEnergyClient.LoopEnergy.GasUseage | pyloopenergy/loop_energy.py:66-69 | returns `gas_kw` unchanged; on a valid object a published rate implies two distinct samples were seen |
| LoopEnergyClient.LoopEnergy.ElectricityUseage | pyloopenergy/loop_energy.py:71-74 | returns `elec_kw` unchanged |
| LoopEnergyClient.LoopEnergy.InitOk | pyloopenergy/loop_energy.py:76-79 | returns `connected_ok` unchanged |
| LoopEnergyClient.LoopEnergy.SubscribeGas | pyloopenergy/loop_energy.py:81-83 | the gas slot holds the given callback (last registration wins); the frame lets nothing else change |
| LoopEnergyClient.LoopEnergy.SubscribeElecricity | pyloopenergy/loop_energy.py:85-87 | the electricity slot holds the given callback; the frame lets nothing else change |
| LoopEnergyClient.LoopEnergy.UpdateElec | pyloopenergy/loop_energy.py:135-140 | `connected_ok` becomes true; `elec_kw` × 1000 equals `inst`; the electricity callback is invoked exactly once if registered and not otherwise; no gas field changes (frame) |
| LoopEnergyClient.LoopEnergy.UpdateGas | pyloopenergy/loop_energy.py:142-181 | `connected_ok` becomes true even for a duplicate; the gas fields become `Ingest` of the old ones; the gas callback is invoked exactly once when a rate was published and one is registered, otherwise never; the history invariant is kept; electricity state and flags other than `connected_ok` are untouched (frame) |
| LoopEnergyClient.LoopEnergy.Terminate | pyloopenergy/loop_energy.py:183-188 | `thread_exit` is true afterwards; nothing else changes (frame) |
| LoopEnergyClient.LoopEnergy.OnDisconnect | pyloopenergy/loop_energy.py:94-106 | `thread_exit` afterwards is true exactly when it already was or no telemetry was ever received; nothing else changes |

No method sets `connected_ok` back to false. Only `UpdateElec` and `UpdateGas` have it
in their frame, and both set it to true.

## Left out

- The event thread and the socket.io connection (`_run_event_thread` and its
  `SocketIO` connect, `on`/`emit` subscriptions and `wait(seconds=15)` loop).
  These are network I/O on a background thread. The handlers are methods
  called with their payload, and the constructor does not start a thread.
- `terminate`'s `join` of the event thread. This is thread synchronisation.
  When `on_disconnect` calls `terminate` on the event thread itself, that join
  is a concurrency matter outside the model. The flag is written before it.
- Logging calls.
- Floating point. The divisions by 1000, by 3600 and by the period are exact
  `real` divisions under Python 3 true division. `inst` is a `real` and the
  gas payload fields are integers.
- Payloads with missing keys or `null` values (a `KeyError` or `TypeError` in
  the source). Payloads are typed records.
- Meter type, calorific value, idle-timeout reconnection and retry delay. The
  modelled code has none of them.
- `rssi` and the other payload fields. The code does not read them.
- `pyloopenergy/__init__.py` (re-exports only) and `setup.py` (packaging).
