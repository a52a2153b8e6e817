# HDMI power sequencer of the RPi HA wall panel, in Dafny

`scripts/hdmi_control.py` is a daemon that offers a Raspberry Pi's display as a
Home Assistant switch over MQTT. It probes once for DDC/CI support
(`check_ddc`). On an `ON`/`OFF` command on `homeassistant/switch/rpi_hdmi/set`,
it runs a fixed sequence of commands to power the display down or up
(`set_hdmi_power`, `blank_screen`, `restore_display`). It then queries the
display and publishes the result, retained, on the state topic
(`get_hdmi_status`, `on_message`). When it connects it subscribes, announces
itself `online` and publishes the current state (`on_connect`).

This project models that core and proves its ordering and failure rules.

- `hdmi_model.dfy` (module `HdmiModel`) is the pure specification.
  - Every external program becomes a `Command`.
  - A `World` gives the outcome of the n-th subprocess call of the process: either the captured stdout or `Raised`, an exception.
  - An operation's run is its list of `Action`s. Each subprocess call is recorded with the outcome it got. `time.sleep` becomes an inert `Sleep(ms)`. MQTT calls become `Subscribe` and `Publish`.
  - `Blanking`, `Restoring`, `PowerOff`, `PowerOn`, `PowerSequence` and `MessageEffects` give the run of each Python function.
  - `ConnectEffects` gives the run of `on_connect`.
  - `Session` folds `MessageEffects` over the payloads in the order the MQTT client loop delivers them, one at a time.
  - `Discovery` is the Home Assistant discovery record.
- `hdmi_panel.dfy` (module `HdmiPanel`) is the imperative model, class `Panel`.
  - Fields: the write-once `ddcAvailable` flag (DDC_AVAILABLE), the number of subprocess calls made so far, and the trace of all effects.
  - Each Python function is a method that follows the source's control flow, including early exits on exceptions.
  - Each method's postcondition ties the new trace, the call count and any result to the specification function (`ConnectEffects` for `OnConnect`).
  - Only `CheckDdc` may write `ddcAvailable`.
- `hdmi_properties.dfy` (module `HdmiProperties`) proves the promised properties about the specification.

Behaviour of the code worth noting:
- The OFF branch also re-queries the display (line 168). The result is not assumed to be OFF.
- An exception from a `ddcutil setvcp` or `vcgencmd display_power` call made directly by `set_hdmi_power` ends the sequence with `UNKNOWN` (lines 170-172). It is not logged-and-continued.
- When `rc != 0`, `on_connect` neither subscribes nor publishes (lines 177-187).
- There are no internal TRANSITIONING states. Commands are serialised only because the client loop calls `on_message` for one message at a time.
- `main` publishes the discovery record before `loop_forever` starts (lines 261-273). It therefore goes out before the publications `on_connect` makes.

Line 255 puts an unescaped `"` inside a double-quoted string literal (`"Raspberry Pi 4 + 15.6" Touch Display"`). As written, the file does not parse. `Discovery` uses the evident intent, `Raspberry Pi 4 + 15.6" Touch Display`.

## Model

| member | source | states |
|---|---|---|
| HdmiProperties.ContainsIff | scripts/hdmi_control.py:49 | Python's substring test `sub in s`, which the status query and the DDC probe use, holds exactly when `sub` occurs at some index of `s` |
| HdmiProperties.StatusQuery | scripts/hdmi_control.py:60-72 | The status is UNKNOWN exactly when the query raised, ON exactly when its stdout contains a `'1'`, and OFF exactly when it completed without one. No other value is published |
| HdmiProperties.DdcProbe | scripts/hdmi_control.py:42-58 | The capability is found exactly when the probe completed and its stdout contains `Display 1`. A raised probe never enables it |
| HdmiPanel.Panel.constructor | scripts/hdmi_control.py:35-36 | At start, DDC_AVAILABLE is False, no call has been made and the trace is empty |
| HdmiPanel.Panel.CheckDdc | scripts/hdmi_control.py:39-58 | Runs `ddcutil detect` once and stores the verdict in the flag (False on an exception). It returns exactly the stored value |
| HdmiPanel.Panel.GetHdmiStatus | scripts/hdmi_control.py:60-72 | Runs one status query and returns its classification. It never propagates the exception |
| HdmiPanel.Panel.BlankScreen | scripts/hdmi_control.py:74-90 | Runs `pkill`, waits 0.5 s, then runs `xset` standby. An exception ends the helper and is swallowed |
| HdmiPanel.Panel.RestoreDisplay | scripts/hdmi_control.py:92-114 | Runs `pkill`, waits 1 s, then launches the kiosk on HA_URL. An exception ends the helper and is swallowed |
| HdmiPanel.Panel.PowerDown | scripts/hdmi_control.py:123-145 | The trace and result of the OFF branch followed by the final query (line 168) |
| HdmiPanel.Panel.PowerUp | scripts/hdmi_control.py:146-168 | The trace and result of the ON branch followed by the final query |
| HdmiPanel.Panel.SetHdmiPower | scripts/hdmi_control.py:117-172 | `"OFF"` powers down and any other state powers up. The trace, the call count and the result are those of `PowerSequence` |
| HdmiPanel.Panel.OnConnect | scripts/hdmi_control.py:175-187 | The trace and call count are those of `ConnectEffects` for the return code |
| HdmiProperties.ConnectOrder | scripts/hdmi_control.py:175-187 | When `rc == 0`: subscribe to the command topic, publish `online` retained on the availability topic, query the display, then publish the queried state retained on the state topic, in that order; the query is the only command and the queried state the only state publication. Otherwise nothing happens and no call is used |
| HdmiPanel.Panel.OnMessage | scripts/hdmi_control.py:189-199 | The trace and call count are those of `MessageEffects` for the payload |
| HdmiProperties.BlankingCommands | scripts/hdmi_control.py:74-90 | `blank_screen` runs `pkill` and then `xset`, unless `pkill` raised. Neither is a command whose failure aborts the sequence |
| HdmiProperties.RestoringCommands | scripts/hdmi_control.py:92-114 | `restore_display` runs `pkill` and then the kiosk launch on the URL, unless `pkill` raised. Neither is a command whose failure aborts the sequence |
| HdmiProperties.OffCommands | scripts/hdmi_control.py:123-141 | The exact command order of the OFF branch: blanking, the brightness-0 command when DDC/CI is available, the signal cut, then the query. A raising direct command ends the list, and one raised exactly when the brightness or signal command raised |
| HdmiProperties.OnCommands | scripts/hdmi_control.py:146-166 | The exact command order of the ON branch: signal on, the brightness-100 command when DDC/CI is available, then `restore_display`'s commands and the query. A raising direct command ends the list, and one raised exactly when the signal or brightness command raised |
| HdmiProperties.OffOrder | scripts/hdmi_control.py:123-141 | On any list of the OFF branch's shape: `pkill` comes first, the blanking commands come before the signal cut, and the brightness command comes between blanking and the cut |
| HdmiProperties.OffSequence | scripts/hdmi_control.py:123-141 | When powering off, `pkill` comes first. `pkill` and `xset` both come strictly before `vcgencmd display_power 0`. With DDC/CI, `ddcutil setvcp 10 0` comes after the blanking and before the signal cut |
| HdmiProperties.OffSignalCut | scripts/hdmi_control.py:89-90 | Nothing that happens inside `blank_screen` keeps the signal on. The cut is skipped only when the brightness-0 command raised, and that command is then the last action |
| HdmiProperties.OnOrder | scripts/hdmi_control.py:146-166 | On any list of the ON branch's shape: signal-on comes first, the brightness command comes before the kiosk restart, and `pkill` comes before the launch |
| HdmiProperties.OnSequence | scripts/hdmi_control.py:146-166 | When powering on, `vcgencmd display_power 1` comes first and strictly before `pkill` and the kiosk launch. With DDC/CI, `ddcutil setvcp 10 100` lies between them. `pkill` precedes the launch |
| HdmiProperties.OnRestoreIsolated | scripts/hdmi_control.py:113-114 | `restore_display` runs exactly when no direct command raised. Whatever it meets, the status query comes after it |
| HdmiProperties.BrightnessGated | scripts/hdmi_control.py:130-163 | Without DDC/CI no brightness command runs in either branch. Brightness levels are 0 for OFF and 100 for ON. With DDC/CI, a sequence that reaches its query has run its brightness command |
| HdmiProperties.QueriedResult | scripts/hdmi_control.py:168-172 | In both branches: the query runs exactly when no direct command raised, and the result is then the classification of that final query. Otherwise the run ends at the raising command and the result is UNKNOWN. UNKNOWN comes exactly from a direct failure or a failed final query |
| HdmiProperties.QueriedOff | scripts/hdmi_control.py:123-145 | `QueriedResult` for the OFF branch |
| HdmiProperties.QueriedOn | scripts/hdmi_control.py:146-172 | `QueriedResult` for the ON branch |
| HdmiProperties.OffCommandSet | scripts/hdmi_control.py:123-141 | Powering off runs only `pkill`, `xset`, brightness 0, signal off and the query |
| HdmiProperties.OnCommandSet | scripts/hdmi_control.py:146-166 | Powering on runs only signal on, brightness 100, `pkill`, the kiosk launch on the URL and the query |
| HdmiProperties.BranchExclusive | scripts/hdmi_control.py:123-166 | OFF never turns the signal on, restores brightness or launches the kiosk. ON never cuts the signal, dims or forces standby, and launches the kiosk only on HA_URL |
| HdmiProperties.SequenceSilent | scripts/hdmi_control.py:117-172 | `set_hdmi_power` makes no MQTT calls itself |
| HdmiProperties.MessageDispatch | scripts/hdmi_control.py:189-199 | `on_message` acts exactly on the payloads `ON` and `OFF`. For them it runs the power sequence, then makes one retained publication of the sequence's result on the state topic, as its last action. Any other payload causes no action and uses no subprocess call |
| HdmiProperties.SessionIgnoresInvalid | scripts/hdmi_control.py:194-199 | Over a stream of messages, non-command payloads change nothing: the run equals the run of the command payloads alone |
| HdmiProperties.SessionReports | scripts/hdmi_control.py:194-197 | Over a stream of messages, when every call returns, each command gets exactly one state publication, and every published state is ON, OFF or UNKNOWN |
| HdmiProperties.SessionBrightnessGated | scripts/hdmi_control.py:131-163 | Without DDC/CI, no brightness command runs in any stream of messages |
| HdmiModel.Discovery | scripts/hdmi_control.py:238-258 | The discovery record names the three topics. Its ON payload is `ON` and its OFF payload is `OFF`, both accepted by `on_message`, and its state payloads are the ones published for ON and OFF. It is retained, not optimistic, and uses qos 1 |
| HdmiProperties.DiscoveryDrivesSequence | scripts/hdmi_control.py:244-245 | The ON payload Home Assistant is told to send runs the power-up branch, and the OFF payload runs the power-down branch |

## Left out

- Command lines, environment and stderr redirection of the subprocesses. Each program is an opaque `Command`, and its outcome is an input (`World`).
- A non-zero exit status is not an exception in Python and counts as completed.
- Every subprocess call is assumed to return, either completing or raising. `pkill` (lines 78 and 96), `xset` (line 82) and `vcgencmd display_power 0`/`1` (lines 141 and 150) have no timeout. If one of them blocks, `set_hdmi_power` never returns and no later message is handled. The model does not capture that hang.
- `subprocess.Popen` of the kiosk is modelled only as "spawned or raised". The browser process itself is not modelled.
- `time.sleep` appears only as inert `Sleep` actions with their durations in milliseconds. Timing is not modelled.
- Exceptions other than those raised by subprocess calls are not modelled. This covers `KeyboardInterrupt` during a sleep and failures of logging.
- The paho MQTT client is not modelled: `connect`, `loop_forever`, reconnection, the last-will registration (line 223), `on_disconnect` (lines 201-204) and its network thread. `Session` models only the loop's serial dispatch of messages.
- `main` (lines 207-278) is process plumbing and is not modelled: probe, connect, discovery publication, graceful shutdown with `offline`, and `sys.exit`.
- The `json.dumps` serialisation of the discovery record is a foreign call. The record is modelled as a value.
- Logging is not modelled.
- The install-time placeholders (lines 23-29) are not modelled. HA_URL is the constructor parameter `haUrl`, and DISPLAY_NAME is the parameter of `Discovery`. The broker address and credentials are not modelled.
- `msg.payload.decode()` is not modelled. `OnMessage` takes the already-decoded payload, so a payload that is not valid UTF-8 is not modelled.
