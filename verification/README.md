# Hardware-interface adoption and VLAN hosts, modelled in Dafny

This project models the two pieces of logic in Mininet's `examples/hwintf.py`
script:

- **`checkIntf`**: the check made before a real network interface is grafted
  into a running emulated switch. The script probes the interface with
  `ifconfig <intf>`. If the probe prints nothing, the interface does not
  exist. If the output contains text matching `\d+\.\d+\.\d+\.\d+`, the
  interface has an address and is probably in use. In both cases the script
  exits with an error. Otherwise the interface may be adopted.
- **`VLANHost.config`**: moves a host's traffic onto a VLAN sub-interface. It
  strips the address from the host's default interface and creates the VLAN
  interface `<base>.<vlan>`. It gives that interface the host's `ip`
  parameter, renames the default interface object to the new name, and adds
  the new name to the host's name-to-interface map.

Modules:

- `Results` (`results.dfy`): `Option`, `Result` and `Outcome`. These stand for
  Python's `None`, raised exceptions and `exit(1)`.
- `Decimal` (`decimal.dfy`): Python's `'%d' % n` rendering, as
  `DecimalString`. Also a reference parser, `ParseDecimal`, that inverts it
  exactly.
- `DottedQuad` (`dotted_quad.dfy`): the regular expression search.
  `ContainsDottedQuad` states it declaratively: some indices
  `a < d1 < d2 < d3 < e` bound four digit runs joined by three dots. The
  executable scanner `HasDottedQuad` is an eight-state automaton, run by the
  recursive `ScanFrom`. `HasDottedQuad` is proved equal to the declarative
  form. `ScanFrom` is proved equal to an intermediate form that asks whether
  a match ends at some position.
- `IntfCheck` (`intf_check.dfy`): the `checkIntf` decision over the probe
  output.
- `VlanHost` (`vlan_host.dfy`): `VLANHost.config` as a pure state transition.
  The host is abstracted to its default interface, a record with an identity
  and a `name`, and its `nameToIntf` map from names to interface identities.
  `self.cmd` appends the rendered command line to a trace of type
  `seq<string>`.

The model follows the code as written, including where a more careful design
would behave differently:

- `config` never range-checks the VLAN id. Any Python int is accepted, and a
  negative one renders with a minus sign.
- `config` never removes the old base-name key from `nameToIntf`. It only
  inserts the new name.
- `config` never refuses a second configuration of the same host. Calling it
  again nests the names (`eth0.100.200`); see `ConfigTwiceKeepsEveryName`.
  That lemma assumes the second call's `Host.config` leaves the host as the
  first call left it. It also assumes `Host.config` only appends to the trace.
- `config` has no all-or-nothing behaviour. It raises `KeyError` on a missing
  `ip` parameter only after the first two commands have been issued. Those
  two commands stay in the trace, and the host mapping is left unchanged.
- `checkIntf` reports only "does not exist" and "has an IP address". There is
  no already-bound check and no probe timeout.
- The address test is a pattern match on digit runs of any length, not an IPv4
  validity test.

## Model

| member | source | states |
|---|---|---|
| IntfCheck.CheckIntf | examples/hwintf.py:61-71 | Empty probe output fails with "does not exist". Non-empty output containing digits.digits.digits.digits anywhere fails with "has an IP address". Every other output passes. Each case holds in both directions. |
| IntfCheck.EmptyProbeDoesNotExist | examples/hwintf.py:63-66 | Empty probe output makes the script exit because the interface does not exist. |
| DottedQuad.ContainsDottedQuad | examples/hwintf.py:67 | The declarative reading of `re.findall(r'\d+\.\d+\.\d+\.\d+', config)` being non-empty: some indices bound four digit runs joined by three dots. `HasDottedQuad` pins its meaning to the scanner. |
| IntfCheck.AnyDigitRunsCount | examples/hwintf.py:67-71 | `999.1234.0.00001` is not an IPv4 address but still marks the interface as in use. |
| IntfCheck.AddressInsideLineCounts | examples/hwintf.py:67-71 | A dotted quad in the middle of other text is found (`re.findall` searches, it does not anchor). |
| IntfCheck.ShortOrBrokenQuadsPass | examples/hwintf.py:67-71 | Three dotted runs, or an empty run between two dots, do not match, so the interface passes. |
| DottedQuad.HasDottedQuad | examples/hwintf.py:67-68 | The executable scanner returns true exactly when some substring matches `\d+\.\d+\.\d+\.\d+`. |
| DottedQuad.ScanFrom | examples/hwintf.py:67 | Run from position i in the automaton state for the prefix read, the scanner returns true exactly when a match ends at or after i. |
| DottedQuad.StepTracksLevel | examples/hwintf.py:67 | One automaton step maps the matched-pattern level of a prefix to the level of the prefix one character longer. |
| DottedQuad.MatchIffSomeEnd | examples/hwintf.py:67 | A text contains a match exactly when some prefix ends with the whole pattern matched, in the suffix-level form. |
| DottedQuad.Run3ImpliesRun2 | examples/hwintf.py:67 | A prefix ending in `\d+\.\d+\.\d+` also ends in `\d+\.\d+`: the partial matches nest. |
| Decimal.DecimalString | examples/hwintf.py:33-37 | `%d` of a VLAN id is a non-empty string with no dot in it. |
| Decimal.DecimalRoundTrip | examples/hwintf.py:33-37 | Parsing the `%d` rendering of any integer gives back that integer. |
| Decimal.RenderOfParse | examples/hwintf.py:33-37 | Any string the reference parser accepts is exactly the `%d` rendering of its value. |
| Decimal.DecimalInjective | examples/hwintf.py:33-37 | Different VLAN ids render to different strings. |
| VlanHost.VlanName | examples/hwintf.py:37 | `newName` is the base name, then a dot, then text that parses back to the VLAN id. `VlanNameSplits` and `SplitsOnlyVlanNames` pin it exactly. |
| VlanHost.Render | examples/hwintf.py:31-35 | The three command formats `ifconfig %s inet 0`, `vconfig add %s %d` and `ifconfig %s.%d inet %s`. `DefaultVlanScenarioCommands` pins their concrete text. |
| VlanHost.VlanNameSplits | examples/hwintf.py:37 | The base name and the VLAN id can be recovered from `<base>.<vlan>` by splitting at the last dot. |
| VlanHost.SplitsOnlyVlanNames | examples/hwintf.py:37 | A name splits into (base, vlan) exactly when it equals `<base>.<vlan>`. |
| VlanHost.VlanNameInjective | examples/hwintf.py:37-41 | Two VLAN names are equal exactly when their bases and VLAN ids are equal. A VLAN name never equals its base, so the inserted key is never the old one. |
| VlanHost.Config | examples/hwintf.py:23-43 | Exactly three commands are appended, in order: `ifconfig <base> inet 0`, `vconfig add <base> <vlan>`, and `ifconfig` giving `params['ip']` to the interface now named `<base>.<vlan>`. The default VLAN is 100. The default interface keeps its identity under the new name. The map gains exactly that key, bound to the same interface, and every other key keeps its binding, including the old base name. The result is `Host.config`'s result. A missing `ip` raises `KeyError` after two commands and leaves the host unchanged. |
| VlanHost.ConfigTwiceKeepsEveryName | examples/hwintf.py:23-43 | Assume the second call's `Host.config` (line 27) keeps the host as the first call left it and only appends to the trace. Then configuring twice succeeds with the nested name `<base>.<v1>.<v2>`, and the second call appends exactly three commands of its own. The base name, the first VLAN name and the second VLAN name all still map to the same interface. |
| VlanHost.DefaultVlanName | examples/hwintf.py:23-37 | With no VLAN id given, `eth0` becomes `eth0.100`. |
| VlanHost.DefaultVlanScenarioCommands | examples/hwintf.py:31-35 | For host `eth0` with the default VLAN and `ip` `10.0.0.1/24`, `config`'s own lines append exactly `ifconfig eth0 inet 0`, `vconfig add eth0 100`, `ifconfig eth0.100 inet 10.0.0.1/24`. |
| VlanHost.DefaultVlanScenarioHost | examples/hwintf.py:39-43 | In the same example the default interface is renamed `eth0.100`, both `eth0` and `eth0.100` map to it, and `Host.config`'s result is returned. |

## Left out

- The execution of `quietRun`, `self.cmd`, `ifconfig` and `vconfig` is not modelled, because it is operating-system I/O. The probe output is an input string, and the commands become entries of a trace.
- The `error(...)` log lines of `checkIntf` are left out; only the two failure kinds that stop the script are kept.
- `IntfCheck.CheckIntf`: `\d` is modelled as the ASCII digits `0`-`9`. This is exact for Python 2 byte strings. Python 3's `\d` also matches other Unicode decimal digits, which `ifconfig` output does not contain.
- `Host.config`, `defaultIntf()` and `Intf(intfName, node=switch)` (line 95) are library code that is not shown here. `Host.config`'s result is a parameter, and the host passed to `Config` is the state `Host.config` left behind. The model assumes the host has a default interface. With none, `defaultIntf()` would return `None` and line 39 would raise.
- `VlanHost.Config`: the VLAN id is typed as an integer, and `params` values as their `str()` renderings. A float `vlan` is truncated by `%d`. A value that is not a number, such as a string or an explicit `vlan=None`, raises `TypeError` at line 33, after the first command has been issued. Neither case is modelled. The model's `None` means the argument was omitted.
- Host interfaces other than the default one are not modelled, because `config` never touches them.
- `exampleAllHosts` (lines 49-58) is left out. It is wiring of library classes and refers to `partial`, which is imported only in the `__main__` block.
- The `__main__` block (lines 74-102) is left out. It handles command-line arguments, starts and stops the network and runs the interactive shell.
- Behaviour the code does not implement is not modelled, since modelling it would misstate the code. This covers duplicate-bind rejection, VLAN range validation, duplicate-name rejection, removal of the old name, rollback and probe timeouts.
