# Configuration defaults and path resolver of MCP Client for Ollama

This project models `mcp_client_for_ollama/config/defaults.py` in Dafny, in one
module, `Defaults` (`defaults.dfy`). The file does two things:

- `default_config()` builds the default settings record: model identifier,
  enabled tools, context, model, generation, display and human-in-the-loop
  settings.
- `get_config_path(config_name="default")` turns a configuration name into a
  file path. It keeps only the letters, digits, `-` and `_` of the name,
  lowercases them, and falls back to `"default"` when nothing is left. The
  name `"default"` selects the application's default configuration file. Any
  other name selects `<name>.json`. Either file name is joined onto the
  configuration directory.

Both are pure in the model, so they are Dafny functions. The proofs are about
those functions:

- Every character of a sanitised name is a lowercase ASCII letter, a digit,
  `-` or `_`.
- A sanitised name is never empty.
- Sanitising is idempotent and ignores letter case. This holds for the ASCII
  model only: Python's own sanitiser is not idempotent on some non-ASCII
  input (`"İ"` lowers to `"i"` plus a combining dot, which a second pass
  drops).
- Filtering keeps the kept characters in their order.
- When the default file name has no `/`, the resolved path is the
  configuration directory, one `/`, and a single file-name component.
- Two names resolve to the same path exactly when they sanitise to the same
  name, or when one of them sanitises to `"default"` and the default file
  name is the other's `<name>.json`.

The configuration directory (`DEFAULT_CONFIG_DIR`), the default file name
(`DEFAULT_CONFIG_FILE`) and the default model (`DEFAULT_MODEL`) are imported
from `utils/constants`, which is not part of this model. Here they are
parameters: `dir`, `defaultFile` and `defaultModel`.

`os.path.join(dir, f)` is modelled as `dir + "/" + f` (`Join`). This matches
Python on POSIX (`posixpath.join`) when `f` is relative, `dir` is not empty
and `dir` does not end in `/`.
The sanitised name never contains `/`, so `<name>.json` is always relative.
The default file name is the caller's constant; if it were absolute, Python
would return it and drop the directory.

## Model

| member | source | states |
|---|---|---|
| `Defaults.IsAlnum` | mcp_client_for_ollama/config/defaults.py:65 | `c.isalnum()` on ASCII: an alphanumeric character is ASCII and is none of `-`, `_`, `/`, `.`. |
| `Defaults.Keep` | mcp_client_for_ollama/config/defaults.py:65 | The filter test `c.isalnum() or c in ['-', '_']`: a kept character is ASCII and is never `/`, `.` or a space. |
| `Defaults.LowerChar` | mcp_client_for_ollama/config/defaults.py:65 | Lowering one character keeps it kept or dropped as before. It turns every kept character into a name character and leaves name characters unchanged. Only upper-case letters change. |
| `Defaults.ToLower` | mcp_client_for_ollama/config/defaults.py:65 | `.lower()` keeps the length of the string. |
| `Defaults.ToLowerAt` | mcp_client_for_ollama/config/defaults.py:65 | Lowering works character by character: position `i` of the result is the lowered character `i` of the input. |
| `Defaults.KeepOnly` | mcp_client_for_ollama/config/defaults.py:65 | The filtering generator joined back into a string is never longer than its input. |
| `Defaults.KeepOnlyMembers` | mcp_client_for_ollama/config/defaults.py:65 | A character occurs in the filtered string exactly when it occurs in the input and is alphanumeric, `-` or `_`. |
| `Defaults.KeepOnlyAppend` | mcp_client_for_ollama/config/defaults.py:65 | Filtering distributes over concatenation, so the kept characters keep their relative order. |
| `Defaults.ToLowerAppend` | mcp_client_for_ollama/config/defaults.py:65 | Lowering distributes over concatenation. |
| `Defaults.KeepOnlyAllKept` | mcp_client_for_ollama/config/defaults.py:65 | A string made only of kept characters passes the filter unchanged. |
| `Defaults.KeepOnlyNoneKept` | mcp_client_for_ollama/config/defaults.py:65 | A string with no kept character filters to the empty string. |
| `Defaults.KeepOnlyRuns` | mcp_client_for_ollama/config/defaults.py:65 | For a name made of four runs, kept, dropped, kept, dropped, the dropped runs vanish and the two kept runs close up, in order. |
| `Defaults.ToLowerOfNameChars` | mcp_client_for_ollama/config/defaults.py:65 | Lowering leaves a string of name characters unchanged. |
| `Defaults.ToLowerIdempotent` | mcp_client_for_ollama/config/defaults.py:65 | Lowering twice is the same as lowering once. |
| `Defaults.KeepOnlyToLower` | mcp_client_for_ollama/config/defaults.py:65 | Filtering then lowering, as the source does, equals lowering then filtering. |
| `Defaults.Sanitize` | mcp_client_for_ollama/config/defaults.py:65 | The sanitised name is never empty. It is no longer than the input, or than `"default"` when it falls back. |
| `Defaults.SanitizeNameChars` | mcp_client_for_ollama/config/defaults.py:65 | Every character of the sanitised name is a lowercase ASCII letter, a digit, `-` or `_`. It contains no `/` and no `.`. |
| `Defaults.SanitizeIdempotent` | mcp_client_for_ollama/config/defaults.py:65 | Sanitising a sanitised name returns it unchanged. |
| `Defaults.SanitizeIgnoresCase` | mcp_client_for_ollama/config/defaults.py:65 | Lowercasing the input first does not change the sanitised name. |
| `Defaults.SanitizeCharacterization` | mcp_client_for_ollama/config/defaults.py:65 | A name with no alphanumeric, `-` or `_` character sanitises to `"default"`. A name with at least one such character sanitises to its kept characters, lowered, in order. The filter keeps nothing exactly when no input character is kept. |
| `Defaults.SanitizeAppend` | mcp_client_for_ollama/config/defaults.py:65 | When both parts keep something, sanitising a concatenation concatenates the lowered kept characters of each part. |
| `Defaults.SanitizeDefaultName` | mcp_client_for_ollama/config/defaults.py:52 | The default argument `"default"` sanitises to itself. |
| `Defaults.SanitizeNothingKept` | mcp_client_for_ollama/config/defaults.py:65 | `""` and `"!!!"` fall back to `"default"`. |
| `Defaults.SanitizeMyConfig` | mcp_client_for_ollama/config/defaults.py:65 | `"My Config!"` sanitises to `"myconfig"`. |
| `Defaults.SanitizeUpperDefault` | mcp_client_for_ollama/config/defaults.py:65 | `"DEFAULT"` sanitises to `"default"`. |
| `Defaults.SanitizeSpacedDefault` | mcp_client_for_ollama/config/defaults.py:65 | `"de fault"` sanitises to `"default"`. |
| `Defaults.SanitizeConfig` | mcp_client_for_ollama/config/defaults.py:65 | `"Config"` sanitises to `"config"`. |
| `Defaults.Join` | mcp_client_for_ollama/config/defaults.py:68 | The joined path is the directory, one `/`, then the file name, and nothing else. |
| `Defaults.JoinInjective` | mcp_client_for_ollama/config/defaults.py:68-70 | Joining two file names onto one directory gives the same path exactly when the file names are equal. |
| `Defaults.JsonSuffixInjective` | mcp_client_for_ollama/config/defaults.py:70 | Two names with `.json` appended are equal exactly when the names are equal. |
| `Defaults.ConfigPath` | mcp_client_for_ollama/config/defaults.py:52-70 | The if/else on the sanitised name: the path begins with the directory followed by `/`. A name that sanitises to `"default"` gives the joined default file. Any other name gives the joined `<sanitised>.json`. |
| `Defaults.ConfigPathEqualIff` | mcp_client_for_ollama/config/defaults.py:65-70 | Two names give the same path exactly when they sanitise to the same name, or when one sanitises to `"default"` and the default file name is the other's `<sanitised>.json`. |
| `Defaults.ConfigPathDistinct` | mcp_client_for_ollama/config/defaults.py:69-70 | Two different non-default sanitised names give different paths. |
| `Defaults.ConfigPathDefaultFileCollision` | mcp_client_for_ollama/config/defaults.py:67-70 | If the default file name is `<n>.json` for a sanitised name `n` other than `"default"`, then the name `n` resolves to the default file's path. |
| `Defaults.ConfigPathCollisionExample` | mcp_client_for_ollama/config/defaults.py:67-70 | With the default file name `config.json`, the names `"Config"` and `"default"` resolve to the same path. |
| `Defaults.ConfigPathStaysInDir` | mcp_client_for_ollama/config/defaults.py:67-70 | When the default file name has no `/`, the path is the directory, `/`, and a single component with no `/`. |
| `Defaults.ConfigPathNamedFile` | mcp_client_for_ollama/config/defaults.py:69-70 | For a non-default name, the last component ends in `.json` and has no other `.`. |
| `Defaults.ConfigPathOmittedName` | mcp_client_for_ollama/config/defaults.py:52-68 | Calling without a name (`"default"`) gives the joined default file. |
| `Defaults.ConfigPathFallsBack` | mcp_client_for_ollama/config/defaults.py:65-68 | `""`, `"!!!"`, `"DEFAULT"` and `"de fault"` all give the joined default file. |
| `Defaults.ConfigPathMyConfig` | mcp_client_for_ollama/config/defaults.py:65-70 | `"My Config!"` gives `<dir>/myconfig.json`. |
| `Defaults.DefaultConfig` | mcp_client_for_ollama/config/defaults.py:9-50 | The default record carries the given model. It has an empty `enabledTools` map, `retainContext` and `hilSettings.enabled` true, thinking mode on, thinking hidden, tool execution shown, metrics hidden, and no seed or stop sequence. |

## Left out

- `os.makedirs(DEFAULT_CONFIG_DIR, exist_ok=True)` (line 62) is filesystem I/O. It is not modelled, and neither are its errors, which propagate to the caller.
- `Keep`, `IsAlnum`, `LowerChar`, `ToLower`: restricted to ASCII. Python's `str.isalnum` also keeps non-ASCII letters and digits, and `str.lower` can lowercase them, sometimes changing the length. The model drops every non-ASCII character, so for non-ASCII input it differs from the source.
- `Join`: models `os.path.join` only for a relative second argument and a non-empty directory that does not end in `/`. The real function discards the directory when the second argument is absolute, does not add `/` after a directory that already ends in one, and returns the file name alone when the directory is empty. The model always inserts exactly one `/`, so for an empty directory it gives an absolute path where Python gives a relative one. On Windows `os.path` is `ntpath`: the separator is `\`, a directory ending in `\` or `/` counts as already separated, and a second argument with a drive prefix or a leading `\` resets the result as a root does. The model follows POSIX only.
- `DEFAULT_MODEL`, `DEFAULT_CONFIG_FILE` and `DEFAULT_CONFIG_DIR` live in `utils/constants`, which is not part of this model. They are parameters.
- `DefaultConfig`: Python floats in `modelConfig` (lines 32-39) are modelled as exact Dafny `real` decimals, so binary rounding is not captured. `None` values are `Option.None`. The model states no ranges for the generation parameters, because the source states none.
- Mutation of the returned dictionary by later callers, and the freshness of each returned dictionary, are not modelled. Dafny datatype values are immutable, so two results cannot share mutable state.
