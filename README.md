# VPS host records and their manager, in Dafny

This project models the core of `VPSManager.py`, the VPS lifecycle manager of a dashboard for trading-bot instances.

- A `VPS` object is one managed virtual server. It holds its address, account, firewall settings and passwords, and the status, log and last-run stamp of each of its three Ansible workflows: init, setup and update. It is saved as a JSON document under `<PBGDIR>/data/vpsmanager/hosts/<hostname>/` and loaded back from there.
- A `VPSManager` holds the `VPS` objects found on disk, sorted by host name. It prepares the launch of each workflow on a record.

Python attributes are dynamically typed. An attribute value is therefore a `Values.Value`: None, str, int or bool. A JSON document is a map from keys to values.

Module layout:

| Module | What it models |
|---|---|
| `Values` | Python truthiness, `str()` of a value, `==`, and the key order of `list.sort`. `list.sort` compares keys with `<`, which raises TypeError unless both are str or both are numbers. The sorted list is non-decreasing in `KeyLe`, the negation of `<` with its arguments swapped. |
| `Files` | The file system as a value: JSON documents, text files and directories. |
| `Records` | The attributes of a `VPS` as the value `Record`. It also holds the pure parts of `load` and `save` and the readiness predicates. |
| `Hosts` | The `VPS` class. Its fields are updated in place by its methods, and each method is proved against the functions of `Records`. |
| `Ansi` | The escape-stripping substitution of the log views. |
| `HostsLine` | The `/etc/hosts` line regex. |
| `StrSplit` | `str.split(',')`. |
| `Timestamp` | `strftime("%Y-%m-%d %H:%M:%S")`. |
| `Requests` | The launch of each workflow, as a value. |
| `Manager` | The `VPSManager` class. |

Inputs from outside the program are parameters. This covers the file system (`Files.Fs`), the list of files `glob` returns, the login user from `getpass.getuser()`, the current time from `datetime.now()`, the lines of `/etc/hosts`, and `PBGDIR` (the working directory at start-up, a `const pbgdir` on each object). A method that touches files takes a file system and returns the new one.

Where the code's behaviour differs from the intent its names or documentation suggest, the model follows the code:

- **Path after `load`.**
  - `find_vps` sets a record's `path` to its JSON file and then loads it.
  - The `hostname` setter and `save` set `path` to the host directory instead.
  - So `load` only succeeds on the `find_vps` route.
  - `Hosts.SetterPathIsTheDirectory` states that the setter's path is the directory that `save` creates, and is not the document.
- **Save/load round trip.** It does not restore `bucket` and `coinmarketcap_api_key`. They are written but never read back (`Records.LoadRestoresSaved`).
- **`find_vps` stops at the first file that fails to load.** It does not skip that file. The records loaded before it stay in the store, unsorted.
- **`save` recomputes `path`.** Every `save` recomputes `path` from the current host name; the path is not fixed when the name is first set.
- **`init_vps` clears the setup status.** It does not clear the init status.
- **An empty host name (`""`) names the hosts root.** `Path` drops the trailing '/' of `hosts/`, so the setter points `path` at the directory of all hosts. `delete` on such a record removes every host's directory (`Hosts.DeletingUnnamedRemovesEveryHost`).

## Model

| member | source | states |
|---|---|---|
| Hosts.VPS.constructor | VPSManager.py:16-42 | A new record holds the constructor defaults: no host name or path, the process owner as user, swap "2.5G", command "unknown", firewall on port 22, empty logs. |
| Records.Defaults | VPSManager.py:16-42 | The defaults have no path and no host name, the given user, and three empty logs. |
| Records.DefaultsNotReady | VPSManager.py:111-133 | A new record has neither init nor setup parameters, no user password, and is not initialized. |
| Hosts.VPS.SetHostname | VPSManager.py:48-51 | The setter changes only the host name and `path`, which becomes `<PBGDIR>/data/vpsmanager/hosts/<name>`. |
| Hosts.SetterPathIsTheDirectory | VPSManager.py:48-51 | With a truthy name, `save` keeps the setter's path. That path is a directory `save` creates, and the host document lies below it at a different path. |
| Hosts.VPS.Load | VPSManager.py:53-85 | `load` succeeds exactly when `path` names an existing JSON document. On success, each known key present replaces its attribute. On failure, nothing changes. |
| Hosts.VPS.LoadAddress | VPSManager.py:56-59 | `_hostname` and `ip` replace their attributes when present; everything else is unchanged. |
| Hosts.VPS.LoadAccount | VPSManager.py:60-63 | `user` and `swap` replace their attributes when present; everything else is unchanged. |
| Hosts.VPS.LoadStamps | VPSManager.py:64-69 | The three `last_*` keys replace their attributes when present; everything else is unchanged. |
| Hosts.VPS.LoadStatuses | VPSManager.py:70-75 | The three `*_status` keys replace their attributes when present; everything else is unchanged. |
| Hosts.VPS.LoadFirewall | VPSManager.py:76-81 | The three firewall keys replace their attributes when present; everything else is unchanged. |
| Hosts.VPS.LoadCommand | VPSManager.py:82-85 | `command` and `command_text` replace their attributes when present; everything else is unchanged. |
| Records.LoadChangesOnlyPresentKeys | VPSManager.py:53-85 | For each of the fifteen keys, `load` takes the document's value when the key is present and keeps the old one when it is absent. Every other attribute is kept. |
| Records.LoadInto | VPSManager.py:53-85 | The attributes after `load` of a document: each of the fifteen keys read replaces its attribute when present (properties in `Records.LoadChangesOnlyPresentKeys`). |
| Records.LoadWithoutKnownKeys | VPSManager.py:53-85 | A document with none of the fifteen keys `load` reads (it may hold `bucket` or anything else) leaves the record unchanged. |
| Records.ConfigOf | VPSManager.py:234-252 | The document `save` writes has exactly the seventeen keys. |
| Records.SecretsNeverSaved | VPSManager.py:234-252 | The passwords, `reboot` and the logs are never among the saved keys. |
| Records.LoadRestoresSaved | VPSManager.py:53-85 | Loading a saved document restores the fifteen attributes `load` reads. `bucket`, `coinmarketcap_api_key`, the passwords, `reboot`, the logs and the paths keep the loading record's values. |
| Records.ConfigIgnoresUnsavedFields | VPSManager.py:234-252 | Two records that agree on the seventeen saved attributes produce the same document. |
| Records.SaveRecord | VPSManager.py:228-233 | `save` leaves the document's content as it was, and changes no attribute but `path` and `privat_data_dir`. With a truthy host name, `path` becomes the host directory and `privat_data_dir` its `tmp` sub-directory; without one nothing changes. |
| Records.SaveFs | VPSManager.py:228-255 | With a truthy host name, `<dir>` and `<dir>/tmp` exist afterwards and the document `<dir>/<hostname>.json` holds exactly the saved keys. No directory is lost, no text file changes, and every other document is kept. Without a host name, the file system is untouched. |
| Records.SaveIdempotent | VPSManager.py:228-255 | Saving twice gives the same attributes and the same file system as saving once. |
| Hosts.VPS.Save | VPSManager.py:228-255 | The method's new attributes and file system are `SaveRecord` and `SaveFs` of its old attributes. |
| Hosts.VPS.Delete | VPSManager.py:257-259 | Everything under the host directory is removed, and every doc, text and directory outside it is kept. A missing directory leaves the file system unchanged. For the empty host name the host directory is the hosts root (`Hosts.DeletingUnnamedRemovesEveryHost`). |
| Hosts.DeletingUnnamedRemovesEveryHost | VPSManager.py:257-259 | When the host name is `""`, the directory `delete` removes is the hosts root. Every path in any host's directory is then gone. |
| Records.HostDir | VPSManager.py:51 | A host directory lies strictly inside the hosts root, except for the empty name, which gives the root itself (the trailing '/' dropped by `Path`). |
| Files.Fs.Rmtree | VPSManager.py:216 | A missing directory changes nothing (`ignore_errors=True`). Otherwise every path inside the tree is removed, and every doc, text and directory outside it is kept. |
| Files.Fs.Unlink | VPSManager.py:189-192 | The file is gone. Every other text, and all docs and directories, are kept. |
| Records.HasInitParameters | VPSManager.py:111-115 | The truthiness of each of ip, both root passwords, user and user password (exact condition in `Records.InitParametersExact`). |
| Records.HasSetupParameters | VPSManager.py:117-121 | The truthiness of each of host name, user, user password, swap, bucket and API key (exact condition in `Records.SetupParametersExact`). |
| Records.HasUserPw | VPSManager.py:123-127 | The truthiness of the user password (exact condition in `Records.UserPwExact`). |
| Records.UserPwExact | VPSManager.py:123-127 | For a str-or-None user password, `has_user_pw` holds iff it is a non-empty str. |
| Records.IsInitialized | VPSManager.py:129-133 | `init_status == "successful"` (exact condition in `Records.IsInitializedExact`). |
| Records.IsInitializedExact | VPSManager.py:129-133 | `is_initialized` holds iff Python's `==` finds the init status equal to "successful", and then the status is truthy. |
| Values.Truthy | VPSManager.py:112 | Python truth testing of an attribute. |
| Values.TruthyExact | VPSManager.py:112 | A value is false exactly when it is None, the empty str, or `== 0` (which includes False). |
| Values.Display | VPSManager.py:51 | `str()` of a value, as an f-string interpolates it: "None", the str itself, decimal digits, "True"/"False". |
| Values.DisplayEmpty | VPSManager.py:51 | `str(v)` is empty iff v is the empty str. |
| Records.InitParametersExact | VPSManager.py:111-115 | When each attribute is a str or None, `has_init_parameters` holds iff ip, both root passwords, user and user password are all non-empty str. |
| Records.SetupParametersExact | VPSManager.py:117-121 | When each attribute is a str or None, `has_setup_parameters` holds iff host name, user, user password, swap, bucket and API key are all non-empty str. |
| Values.TruthyStringOrNone | VPSManager.py:123-127 | A str-or-None value is truthy iff it is a non-empty str. |
| Hosts.VPS.IsVpsInHosts | VPSManager.py:87-96 | The result is true iff the hosts file exists and one of its lines matches `^ip[ \t]+hostname$`. |
| HostsLine.LineMatches | VPSManager.py:93 | `^ip[ \t]+hostname$` is found in the line: the address at the front, one or more blanks, the host name at the end, optionally followed by one newline. |
| HostsLine.ExactLineMatches | VPSManager.py:93 | A line of the address, one or more blanks and the host name matches, with or without one trailing newline. |
| HostsLine.PrefixOfNameDoesNotMatch | VPSManager.py:93 | A line whose last name only starts with the host name does not match (e.g. vm1 and vm10). |
| HostsLine.DotInAddressIsWildcard | VPSManager.py:93 | A `.` in the interpolated address matches any character. |
| HostsLine.ExactLineMatchesWith | VPSManager.py:93 | Any text the address pattern matches, followed by blanks and the host name, makes the line match. |
| Hosts.VPS.ViewLog | VPSManager.py:148-166 | The shown log is a subsequence of the workflow's log, and it equals the log when the log has no ESC. |
| Ansi.EscapeAt | VPSManager.py:150 | The length of the escape sequence the pattern matches at the start of the text: 0 for none, otherwise at least 2 and starting with ESC. |
| Ansi.StripAnsi | VPSManager.py:150-151 | `sub("", …)`: the text with every match removed, scanning left to right; never longer than its input. |
| Ansi.StripAnsiWithoutEscape | VPSManager.py:150-151 | Text without ESC is returned unchanged. |
| Ansi.StripAnsiIsSubsequence | VPSManager.py:150-151 | The result is always a subsequence of the input. |
| Ansi.StripAnsiSplitAtEscape | VPSManager.py:150-151 | Stripping distributes over a split just before an ESC. |
| Ansi.ControlSequenceMatchesWhole | VPSManager.py:150 | A complete control sequence (ESC, `[`, parameter bytes, intermediate bytes, final byte) is matched as a whole. |
| Ansi.StripAnsiRemovesControlSequence | VPSManager.py:150-151 | A complete control sequence is removed entirely, and the text around it is stripped independently. |
| Ansi.StripAnsiRemovesTwoByteEscape | VPSManager.py:150-151 | ESC followed by a byte in `@`-`Z` or `\`-`_` is removed entirely. |
| Hosts.Stdout | VPSManager.py:170 | The text an event contributes is non-empty only when the event has that str under "stdout". |
| Hosts.VPS.EventHandler | VPSManager.py:168-187 | Non-empty stdout is appended to the workflow's log file and in-memory log. Missing or empty stdout changes nothing. When the host directory does not exist, opening the file fails and nothing changes. |
| Files.AppendIn | VPSManager.py:171-172 | Appending succeeds iff the directory exists. The file's text becomes its old text followed by the new text, and every other file, document and directory is unchanged. |
| Hosts.EventsAppendInOrder | VPSManager.py:168-187 | Events "a" then "b" leave "ab" at the end of the workflow's log and of its log file. |
| Files.AppendTwice | VPSManager.py:171-172 | Two appends are one append of the concatenation. |
| Records.WithLogTouchesOnlyItsLog | VPSManager.py:168-187 | Setting one workflow's log changes no other log, status, stamp or shared attribute. |
| Hosts.VPS.RemoveLog | VPSManager.py:189-202 | The workflow's log file is gone, and every other file and directory is kept. |
| Hosts.VPS.AppendLog | VPSManager.py:173 | The workflow's log becomes the old log followed by the text; nothing else changes. |
| Hosts.VPS.ClearLog | VPSManager.py:295 | The workflow's log becomes empty; nothing else changes. |
| Hosts.VPS.SetStatus | VPSManager.py:205 | The workflow's status is replaced; nothing else changes. |
| Hosts.VPS.StatusHandler | VPSManager.py:204-211 | The reported status replaces the workflow's status verbatim. |
| Records.WithStatusTouchesOnlyItsStatus | VPSManager.py:204-211 | Setting one workflow's status changes no other status, log, stamp or shared attribute. |
| Hosts.VPS.Finished | VPSManager.py:213-226 | The workflow's last-run stamp becomes the formatted time; then comes `save`, and then the private working directory is removed. |
| Hosts.VPS.Stamp | VPSManager.py:214 | The workflow's last-run stamp is replaced; nothing else changes. |
| Records.WithLastTouchesOnlyItsStamp | VPSManager.py:213-226 | Setting one workflow's stamp changes no other stamp, status, log or shared attribute. |
| Timestamp.Strftime | VPSManager.py:214 | The formatted time has the form `YYYY-MM-DD HH:MM:SS`. |
| Timestamp.Parse | VPSManager.py:214 | Reading back a time stamp succeeds iff the text has that form. |
| Timestamp.ParseStrftime | VPSManager.py:214 | Reading back a formatted time gives the same time. |
| Timestamp.StrftimeParse | VPSManager.py:214 | Formatting a time read from a stamp gives the stamp back. |
| Manager.VPSManager.constructor | VPSManager.py:262-264 | A new manager has an empty store and the hosts directory as its path. |
| Manager.Open | VPSManager.py:261-265 | `VPSManager()` is the constructor followed by `find_vps`, with the outcomes listed for FindVps. |
| Manager.VPSManager.List | VPSManager.py:267-268 | `list()` has one host name per record, in the store's order. |
| Manager.Hostnames | VPSManager.py:268 | The host names of a sequence of records, index by index. |
| Manager.VPSManager.FindVpsByHostname | VPSManager.py:270-274 | Returns the first record whose host name equals the given one (Python `==`). Returns None iff no record's name equals it. |
| Manager.VPSManager.FindVps | VPSManager.py:276-286 | One record per file is loaded and appended in order. Loading stops at the first file that fails, and the records before it stay. The sort fails iff the host names cannot be compared. Otherwise the store is a permutation of its old records plus the loaded ones, sorted by host name. |
| Manager.VPSManager.LoadAll | VPSManager.py:279-284 | Each loaded record holds the defaults with its file's path, overlaid with the file. The failure index is the first missing file. |
| Manager.VPSManager.LoadHost | VPSManager.py:281-283 | A new record with `path` set to the file loads iff the file is a document. |
| Manager.VPSManager.SortByHostname | VPSManager.py:286 | When the keys are comparable, the store becomes a sorted permutation of itself. |
| Manager.SortableIffComparable | VPSManager.py:286 | Sorting does not raise iff every two host names can be compared: fewer than two, all str, or all numbers. |
| Manager.InsertKeepsSorted | VPSManager.py:286 | Inserting before the first larger key keeps the list sorted. |
| Manager.InsertKeepsMultiset | VPSManager.py:286 | Inserting the next record keeps the same records. |
| Values.KeyLeTotal | VPSManager.py:286 | Keys of one kind, str or number, are always comparable. |
| Values.KeyLeTransitive | VPSManager.py:286 | The key order is transitive. |
| Values.KeyLeNeedsOneKind | VPSManager.py:286 | Only keys of one kind, never None, can be compared. |
| Values.StrLeTotal | VPSManager.py:286 | The str order is total. |
| Values.StrLeTransitive | VPSManager.py:286 | The str order is transitive. |
| Values.StrLeAntisymmetric | VPSManager.py:286 | The str order is antisymmetric. |
| Values.StrLeReflexive | VPSManager.py:286 | The str order is reflexive. |
| Values.StrLeIsNotGreater | VPSManager.py:286 | On str, `a <= b` iff not `b < a`. |
| Values.KeyLeIsNotGreater | VPSManager.py:286 | Between comparable keys, `KeyLe(a, b)` iff `b < a` is false. So the order proved for the store is the one `list.sort`'s `<` produces. |
| Manager.VPSManager.AddVps | VPSManager.py:288-289 | A fresh record with the defaults; the store is not changed. |
| Manager.VPSManager.InitVps | VPSManager.py:291-319 | The setup status is cleared, then `save`, then the init log file is deleted and the init log emptied. Returns the init launch built from the record. |
| Manager.VPSManager.SetupVps | VPSManager.py:321-351 | `save`, then the setup log file is deleted and the setup log emptied. Returns the setup launch, or the error of splitting a non-str SSH address list. |
| Manager.VPSManager.UpdateVps | VPSManager.py:353-382 | The update status is cleared, then `save`, then the update log file is deleted and the update log emptied. Returns the launch of the command's playbook, or the splitting error. |
| Requests.ResetsTouchOnlyTheirFields | VPSManager.py:291-382 | Each preparation differs from a plain `save` exactly in its own fields. For init these are the setup status and init log; for setup, the setup log; for update, the update status and update log. Those fields end up None or empty. Restoring them and the two paths `save` re-derives gives back the record as it was. |
| Requests.ReinitKeepsInitialized | VPSManager.py:291-295 | Preparing an init run keeps `is_initialized` as it was. |
| Requests.InitRequest | VPSManager.py:300-318 | The init launch has the seven extravars keys, the host name as inventory, and the private data directory. |
| Requests.SetupRequest | VPSManager.py:329-350 | The setup launch exists iff the SSH address attribute is a str, and it has the ten extravars keys. |
| Requests.UpdateRequest | VPSManager.py:362-381 | The update launch exists iff the SSH address attribute is a str, and it has the eight extravars keys. |
| Requests.Tags | VPSManager.py:296-299 | Tags are given iff debug is on. |
| Requests.TagsAgreeWithDebug | VPSManager.py:296-318 | In every launch, the `debug` variable equals the flag, and the tags are "debug,all" iff it is on. |
| Requests.OnlyInitSeesRootPasswords | VPSManager.py:303-312 | Only the init launch carries the root passwords, and it carries them as stored. |
| Requests.SshIps | VPSManager.py:341 | Splitting succeeds iff the attribute is a str, giving at least one piece and no piece containing ",". |
| Requests.SshIpsRoundTrip | VPSManager.py:341 | Joining the pieces with "," gives the attribute back. |
| Requests.SshIpsOfJoined | VPSManager.py:341 | Splitting the join of comma-free pieces gives the pieces back. |
| Requests.LaunchedAddressesJoinBack | VPSManager.py:341 | The address list of the setup and update launches joins back to the record's attribute. |
| StrSplit.Split | VPSManager.py:341 | `split` gives at least one piece, and no piece contains the separator. |
| StrSplit.JoinSplit | VPSManager.py:341 | Joining the pieces of a split gives the text back. |
| StrSplit.SplitCount | VPSManager.py:341 | There is one piece more than there are separators. |
| StrSplit.SplitJoin | VPSManager.py:341 | Splitting the join of non-empty lists of separator-free pieces gives the pieces back. |

## Left out

- `is_vps_ssh_open` (VPSManager.py:98-109) is not modelled, because it is a socket connection attempt with a timeout.
- The Streamlit parts of the views (`st.fragment`, `st.text`, `st.code`) are left out, and the status views with them. Only the escape stripping of the log views is modelled.
- `ansible_runner.run_async` is not run. The launch is returned as a `Requests.LaunchRequest` value, and the callbacks are ordinary method calls. The runner's background thread and any interleaving of callbacks are not modelled, and neither are the `runner_config` arguments.
- Byte-level JSON formatting (`indent=4`, encodings) is not modelled, and neither are documents that fail to parse.
  - A document is a map from keys to None, str, int or bool.
  - Floats and nested values are not modelled.
- Paths are plain strings. The only `Path` normalisation modelled is the dropped trailing '/' of an empty host name. Other normalisation (a host name holding '/', '.' or '..', a PBGDIR ending in '/') is not modelled. Parent creation by `mkdir(parents=True)` is not modelled, and neither is the fact that a directory and a file may not share a path.
- Regex metacharacters other than `.` in the interpolated address or host name are treated as literal characters. This is `HostsLine.LineMatches`.
- Reading `/etc/hosts` is left out; its lines, or None when it does not exist, are a parameter.
- `glob` is left out. The files it returns, in its order, are a parameter.
- `getpass.getuser()` and `datetime.now()` are parameters.
- When `list.sort` raises, Python may leave the list partly reordered. The model leaves the store unchanged in that case.
- `Manager.VPSManager.SortByHostname`: proves sorted and a permutation but not the stability Python's sort also gives.
- `Hosts.VPS.StatusHandler`: requires "status" in the status data, because the runner always sends it. A missing key would raise KeyError; this is not modelled.
- `Hosts.VPS.EventHandler`: requires a str or None under "stdout". Other values would reach `open`/`write` or the string concatenation and raise, or be appended differently.
- `Hosts.VPS.Finished`: requires a time with a four-digit year, as `datetime.now()` gives in practice.
- `Hosts.SetterPathIsTheDirectory`: requires a truthy name. Without one, `save` does nothing.
- `PBGDIR` is one global in the program. Here each object has its own `pbgdir`, and the lemmas relate objects created with the same value.
- The three copies of each handler (init, setup, update) are one method each, with the workflow as a parameter.
