# Bandit call rules and call blacklist, modelled in Dafny

This project models the visible decision logic of a group of bandit
security checks:

- five call rules (B205, B319, B324, B327, B336). Each rule asks the scanner
  whether a module like its guard module is imported. It then asks whether the
  callee's resolved qualified name ends with a fixed suffix, using Python
  `str.endswith`. If both hold, it returns an issue with HIGH severity, MEDIUM
  confidence, a fixed text, and the line of the call's `debug` argument;
- the string rule B502, which reports a string literal whose parent node is an
  attribute access named `decode`;
- the static call blacklist returned by `gen_blacklist`: nine entries under the
  single key `'Call'`.

The scanner's context queries (module-import guard, qualified-name
resolution, keyword-argument line lookup) are not part of this model. Their
answers are the fields of an immutable `Context` record:
- `importedLike`: the set of module names the guard answers yes for;
- `qual`: the resolved qualified name;
- `debugLine`: the result of the line lookup.

Modules:

| file | module | contents |
|---|---|---|
| wrappers.dfy | `Wrappers` | `Option`, standing for Python's `None` result |
| core.dfy | `Core` | `Level`, `Issue`, `Context` |
| py_strings.dfy | `PyStrings` | `EndsWith` (Python `str.endswith`), `LastSegment` (text after the last dot), and the lemmas linking them |
| seqs.dfy | `Seqs` | `NoDuplicates`, a recursive check that evaluates cheaply on literal lists, proved equivalent to pairwise distinctness |
| call_plugins.dfy | `CallPlugins` | the five suffix rules and their properties |
| string_decode.dfy | `StringDecodePlugin` | rule B502 |
| blacklist_calls.dfy | `BlacklistCalls` | the `'Call'` blacklist table and its invariants |
| registry.dfy | `Registry` | plugin test ids and checked node kinds, and uniqueness of all rule ids |

Each call rule has two partners. One is the rule's own contract: the guard,
the `endswith` test, and the issue fields. The other is a `…Meaning` lemma
that restates when the rule fires in two independent ways:
- the name is some prefix followed by the suffix;
- a statement about the final dotted segment of the name (`LastSegment`).

The rules' texts are constants and never include the qualified name. Only
B205's suffix starts with a dot, and no rule tests `HTTPSConnection`. The
rules pass the `debug` lookup's answer through unchanged, `None` included.

The second reading shows how the rules differ. B205's suffix `.sendall`
matches a whole final segment. The other four suffixes carry no dot, so they
match any final segment that merely ends with them: `os.rewrite` fires B336.

## Model

| member | source | states |
|---|---|---|
| CallPlugins.SocketSendall | bandit/plugins/socket_sendall.py:47-57 | With `socket` not imported-like: no issue. With it: an issue exactly when the qualified name ends with `.sendall`. The issue is HIGH/MEDIUM with text "Send data to the socket" and the `debug` lookup's line, unchanged. |
| CallPlugins.SocketSendallMeaning | bandit/plugins/socket_sendall.py:50-51 | B205 fires iff `socket` is imported-like and the name is some prefix followed by `.sendall`. Equivalently: the name contains a dot and its final segment is exactly `sendall`. |
| CallPlugins.SocketSendallExamples | bandit/plugins/socket_sendall.py:51 | `socket.sendall` and `foo.sendall` fire; `mysendall` does not. Without the guard, nothing fires. |
| CallPlugins.BareSendallSeparatesTheSocketRules | bandit/plugins/socket_sendall.py:51 | A bare `sendall` fires B319 but not B205, so the dot in B205's suffix matters. |
| CallPlugins.SocketSendallImpliesSocketSocketSendall | bandit/plugins/socket_socket_sendall.py:15-22 | Every context that fires B205 also fires B319, with equal severity, confidence and line. |
| CallPlugins.SocketSocketSendall | bandit/plugins/socket_socket_sendall.py:12-22 | Guard `socket`, suffix `sendall` with no dot. Issue is HIGH/MEDIUM, text "socket.socket.sendall", line from the `debug` lookup. No issue without the guard. |
| CallPlugins.SocketSocketSendallMeaning | bandit/plugins/socket_socket_sendall.py:15-16 | B319 fires iff the guard holds and the name is some prefix followed by `sendall`. Equivalently: the final segment ends with `sendall`. |
| CallPlugins.SocketSocketSendallExamples | bandit/plugins/socket_socket_sendall.py:16 | `socket.socket.sendall` and `mysendall` fire. Without `socket` imported-like, nothing fires. |
| CallPlugins.HttpClientHttpConnection | bandit/plugins/http_client_HTTPConnection.py:12-22 | Guard `http`, suffix `HTTPConnection`. Issue is HIGH/MEDIUM, text "http.client.HTTPConnection", line from the `debug` lookup. No issue without the guard. |
| CallPlugins.HttpClientHttpConnectionMeaning | bandit/plugins/http_client_HTTPConnection.py:15-16 | B324 fires iff the guard holds and the name is some prefix followed by `HTTPConnection`. Equivalently: the final segment ends with it. |
| CallPlugins.HttpClientHttpConnectionExamples | bandit/plugins/http_client_HTTPConnection.py:16 | `http.client.HTTPConnection` fires. `http.client.HTTPSConnection` (extra `S`) does not. `http.client.httpconnection` (lower case) does not. |
| CallPlugins.UrllibUrlretrieve | bandit/plugins/urllib_urlretrieve.py:12-22 | Guard `urllib`, suffix `urlretrieve`. Issue is HIGH/MEDIUM, text "urllib_urlretrieve", line from the `debug` lookup. No issue without the guard. |
| CallPlugins.UrllibUrlretrieveMeaning | bandit/plugins/urllib_urlretrieve.py:15-16 | B327 fires iff the guard holds and the name is some prefix followed by `urlretrieve`. Equivalently: the final segment ends with it. |
| CallPlugins.UrllibUrlretrieveExamples | bandit/plugins/urllib_urlretrieve.py:16 | `urllib.urlretrieve` and `urllib.request.urlretrieve` fire; `urllib.request.urlopen` does not. |
| CallPlugins.OsWrite | bandit/plugins/os_write.py:12-22 | Guard `os`, suffix `write`. Issue is HIGH/MEDIUM, text "os_write", line from the `debug` lookup. No issue without the guard. |
| CallPlugins.OsWriteMeaning | bandit/plugins/os_write.py:15-16 | B336 fires iff the guard holds and the name is some prefix followed by `write`. Equivalently: the final segment ends with `write`. |
| CallPlugins.OsWriteExamples | bandit/plugins/os_write.py:16 | `os.write`, `f.write` and `os.rewrite` fire; `os.writev` and `f.writelines` do not. |
| StringDecodePlugin.StringDecode | bandit/plugins/string_decode.py:8-15 | An issue exactly when the parent is an attribute access named `decode`. The issue is MEDIUM/MEDIUM, text "string_decode", no line. |
| StringDecodePlugin.StringDecodeIgnoresContents | bandit/plugins/string_decode.py:9-15 | Two literals with the same parent get the same outcome, whatever their contents. |
| StringDecodePlugin.StringDecodeExamples | bandit/plugins/string_decode.py:9-11 | `.decode` fires. `.encode` does not. A non-attribute parent does not. |
| Registry.Register | bandit/plugins/string_decode.py:6-7 | The decorator registration of each plugin: B502 is the only plugin registered on string-literal (`Str`) nodes; the five suffix rules are registered on `Call` nodes (each plugin file's `@test.checks` line). |
| Registry.PluginIds | bandit/plugins/socket_sendall.py:47-48 | The registered ids, in plugin order, are exactly B205, B324, B319, B327, B336, B502: B205 here, and B324, B319, B327, B336 at lines 12-13 of http_client_HTTPConnection.py, socket_socket_sendall.py, urllib_urlretrieve.py and os_write.py, and B502 at string_decode.py:7. |
| BlacklistCalls.GenBlacklist | bandit/blacklists/calls.py:319-384 | The result has exactly one key, `'Call'`. Its list holds nine entries whose ids, in order, are B300, B301, B302, B303, B330, B331, B332, B333, B334. |
| BlacklistCalls.CallIdsDistinct | bandit/blacklists/calls.py:331-384 | No two entries of the `'Call'` list share a rule id. |
| BlacklistCalls.CallNamesDistinct | bandit/blacklists/calls.py:331-384 | No two entries of the `'Call'` list share a name. |
| BlacklistCalls.CallQualnamesSingleton | bandit/blacklists/calls.py:331-384 | Every entry lists exactly one qualified name, and it is non-empty. |
| BlacklistCalls.CallQualnameInOneEntry | bandit/blacklists/calls.py:331-384 | A qualified name listed by two entries forces them to be the same entry. |
| BlacklistCalls.SocketEntriesSeparate | bandit/blacklists/calls.py:349-365 | `socket.socket.connect` belongs to B303 and `socket.socket` to B331: two separate entries. |
| BlacklistCalls.B301MessageVerbatim | bandit/blacklists/calls.py:338-341 | Entry B301 is `base64_b64encode` for `base64.b64encode`. Its message, which says "b64decode", is kept verbatim. |
| Registry.TableIdsAreNotPluginIds | bandit/blacklists/calls.py:333-383 | No table entry's id is one of the plugin ids B205, B324, B319, B327, B336, B502. |
| Registry.AllRuleIdsDistinct | bandit/blacklists/calls.py:331-384 | The table ids followed by the six plugin ids form a list in which no id occurs twice. |

Supporting lemmas, which need no rows:
- `PyStrings.EndsWithIffConcat`, `DotSuffixIffLastSegment` and
  `EndsWithIffLastSegmentEndsWith` characterise `endswith` on dotted names.
- `Seqs.NoDuplicatesIffPairwiseDistinct` connects the recursive duplicate
  check with pairwise distinctness.

## Left out

- The scanner context queries `is_module_imported_like`,
  `call_function_name_qual` and `get_lineno_for_call_arg` are not part of
  this model. Their answers are inputs in `Core.Context`. The guard is plain
  set membership, and no alias or substring semantics are assumed for it.
- Import binding tables, qualified-name resolution and the exact/wildcard
  blacklist matcher are not part of this model, because no code for them is
  among the modelled files.
- `utils.build_conf_dict` is not part of this model. Each table entry keeps
  only the four arguments passed to it. Entries carry no severity or
  confidence, because the builder's output shape is unknown.
- The scanner's fallback to the node's own line is left out. When a rule
  supplies no line, the issue's `lineno` is `None`: for B502 always, and for
  the call rules when the `debug` lookup finds nothing.
- Issue fields beyond severity, confidence, text and line (CWE, code
  excerpt) are left out. The rules' `Issue` carries no test id; the id lives
  in `Registry.Register`.
- Decorator registration (`test.test_id`, `test.checks`) is modelled as the
  constant function `Registry.Register`, not as import-time side effects.
- Statelessness of `gen_blacklist` (two calls give equal results) has no
  separate lemma. `GenBlacklist` is a Dafny function with no arguments, so it
  holds by construction.
- The docstring tables in bandit/blacklists/calls.py:17-312 and the
  Flask/B202 docstring in bandit/plugins/socket_sendall.py:8-41 are left out.
  They disagree with the code; for example, the docstring gives B301 as
  pickle. The model follows the code.
- Syntax-tree construction, tree walking, report formatting, configuration
  loading and all I/O are left out.
