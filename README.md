# taurus: the eToro client's URL builder and credential store, in Dafny

taurus is a thin Python wrapper around the eToro trading API. It has a
credential store that keeps one service's API keys in a per-user
configuration file. This project models the two parts of it that carry logic
and proves properties of them:

- `Etoro` (`taurus/etoro.py`):
  - the query-string builder `add_url`, modelled as a method that extends the
    URL one pair per loop iteration, proved against the function
    `UrlWithParams`;
  - the request each of `get`, `delete` and `post` would send (verb, URL,
    form body);
  - the `|` composition of two audience `Behavior` objects.
- `CredentialStore` (`taurus/credentials.py`):
  - the `Credentials` class, whose `credentials` map is updated in place by
    `add` and by the merge loop of `load`;
  - attribute lookup of a credential, and the `str()` rendering;
  - the configuration-file path, built with POSIX `os.path.join`;
  - the key list and prompts of the interactive `configure`.
- `Wrappers`: the `Option` and `Result` types the other two modules use.

`add_url` is modelled as written, on strings of characters. It appends one separator, `&` if
the base URL already holds a `?` and `?` otherwise. It then appends the pairs
`k=v` with nothing between them, so `{"p": "1", "r": "2"}` gives `?p=1r=2`.
`PairsRunTogether` shows that two different parameter lists can then give the
same URL. Python 2 dictionaries have no defined iteration order, so
parameters are a sequence of pairs taken in whatever order the dictionary
gives them.

The source does not URL-encode keys or values: it formats them with
`'{}={}'.format(k, v)`. The model follows the source and does not encode
them either.

`add` takes a `map` and assigns its keys in an order the loop picks freely,
as a Python 2 dictionary does. The profile section that `load` reads is the
list of pairs `ConfigParser.items` returns, with the last pair winning on a
repeated key. `str()` takes the order the map's items come out in as an
argument.

## Model

| member | source | states |
|---|---|---|
| Etoro.AddUrl | taurus/etoro.py:12-19 | the URL built by appending one separator and then each `k=v` pair inside the loop equals `UrlWithParams(base, params)` |
| Etoro.UrlWithParams | taurus/etoro.py:12-19 | with no params the base URL comes back unchanged; otherwise the base is a prefix of the result and exactly one separator follows it |
| Etoro.Separator | taurus/etoro.py:14 | the separator is `&` exactly when the base already holds a `?`, and `?` exactly when it does not |
| Etoro.UrlLength | taurus/etoro.py:15-17 | the result has length \|base\| + 1 + Σ(\|k\| + 1 + \|v\|), so an empty parameter list still adds the separator |
| Etoro.QueryLength | taurus/etoro.py:16-17 | the appended pairs together have length Σ(\|k\| + 1 + \|v\|) |
| Etoro.QueryConcat | taurus/etoro.py:16-17 | the text of two parameter lists in a row is the text of the first followed by the text of the second |
| Etoro.QueryHasNoAmpersand | taurus/etoro.py:16-17 | no `&` is written between pairs: if no key or value holds `&`, the query text holds none |
| Etoro.PairsRunTogether | taurus/etoro.py:16-17 | `[p=1, r=2]` and the single pair `p=1r=2` produce the same URL, `base + sep + "p=1r=2"` |
| Etoro.UrlExamples | taurus/etoro.py:12-19 | `http://x/a` with `p=1` gives `http://x/a?p=1`; `http://x/a?q=1` with `p=2` gives `http://x/a?q=1&p=2`; an empty list gives `http://x/a?` |
| Etoro.GetRequest | taurus/etoro.py:94-107 | `get` issues a GET without a body to `api_url + endpoint`, followed by the separator and the pairs when params are given |
| Etoro.DeleteRequest | taurus/etoro.py:119-128 | `delete` sends the same request as `get`, a GET and not a DELETE |
| Etoro.PostRequest | taurus/etoro.py:145-156 | `post` issues a POST whose URL is the one `get` would build with the payload as params, and whose body is the payload |
| Etoro.Or | taurus/etoro.py:183-189 | `a \| b` has the single entry `components`, a two-element list from which `Operands` reads back exactly `(a, b)`: first `{complexAudienceBehavior: a}`, then `{complexAudienceBehavior: b, operator: 'OR'}` |
| CredentialStore.ProfileKeys | taurus/credentials.py:7-18 | the profile key list exists only for the `etoro` service (any other service makes the `AUTH`/`DEFAULT_PROFILE` lookup raise `KeyError`) and is `app_id`, `app_secret`, `long_access_token` |
| CredentialStore.PathJoin | taurus/credentials.py:51-56 | the joined path ends with the second part; an absolute second part replaces the first; otherwise the second part is appended directly to an empty first part or one ending in `/`, and after exactly one `/` to any other first part |
| CredentialStore.ConfigPath | taurus/credentials.py:52-56 | the configuration file's path ends with the file name, or with the service when no file name is given; an absolute folder replaces the home directory |
| CredentialStore.ConfigPathShape | taurus/credentials.py:51-56 | for relative, slash-free parts the path is exactly `<home>/<folder>/<file name>`, the file name defaulting to the service |
| CredentialStore.Credentials.constructor | taurus/credentials.py:46-57 | a new store has an empty map; its name is the service; its file is home / folder / (file name, or else the service) |
| CredentialStore.Credentials.Name | taurus/credentials.py:69-71 | the `name` property is the service the store was created for |
| CredentialStore.Credentials.Get | taurus/credentials.py:61-63 | looking up a credential yields its value when the key is set and `None` otherwise, never an error |
| CredentialStore.Credentials.ToString | taurus/credentials.py:65-67 | an empty map renders as the empty string; for a non-empty map where no key or value holds a newline, splitting at newlines gives one `k: v` line per entry, in iteration order |
| CredentialStore.Render | taurus/credentials.py:66-67 | no entries render as ""; n entries render to the total size of their `k: v` lines plus n - 1 characters, starting with the first entry's line |
| CredentialStore.RenderConcat | taurus/credentials.py:66-67 | rendering two non-empty runs of entries is rendering the first, one `\n`, then rendering the second: one newline between neighbouring lines and none after the last |
| CredentialStore.RenderLines | taurus/credentials.py:66-67 | entries joined by `\n` with no trailing newline split back into one `k: v` line per entry when no key or value holds a newline |
| CredentialStore.Credentials.Add | taurus/credentials.py:121-123 | every key of the dictionary now maps to its value there; every other key keeps its old value; no other key appears |
| CredentialStore.UnionIdempotent | taurus/credentials.py:121-123 | adding the same dictionary twice leaves the same map as adding it once |
| CredentialStore.Credentials.Load | taurus/credentials.py:94-101 | for a service with a default profile, each key of the section takes the value of its last pair and every other key keeps its old value; for any other service it fails with `KeyError` and the map is unchanged |
| CredentialStore.MergeLookup | taurus/credentials.py:100-101 | after the merge a key is present iff it was present before or some pair names it; a named key holds its last pair's value; others keep theirs |
| CredentialStore.FindSome | taurus/credentials.py:100-101 | a section supplies a value for a key iff some pair of it has that key |
| CredentialStore.MergeIdempotent | taurus/credentials.py:100-101 | loading the same section twice leaves the same map as loading it once |
| CredentialStore.LoadItems | taurus/credentials.py:100-101 | merging a section whose pairs are a dictionary's items, in any order, merges exactly that dictionary into the map |
| CredentialStore.Spaced | taurus/credentials.py:116-117 | the prompt text has the key's length, with every `_` replaced by a space and every other character kept |
| CredentialStore.Prompt | taurus/credentials.py:116-117 | the prompt is `Enter `, then the key with every `_` shown as a space, then `: ` |
| CredentialStore.AskParams | taurus/credentials.py:114-117 | one prompt per key, up to and including the first key with no answer left; success iff every key got an answer; then each key maps to its own answer |
| CredentialStore.Credentials.PromptParams | taurus/credentials.py:113-117 | asks for exactly the keys of the service's default profile; a service missing from the tables fails |

## Left out

- HTTP traffic is not modelled: the transport of `get`, `post` and `delete`, `raise_for_status`, the logged and swallowed `HTTPError`, `_authenticate`, `_get_service_ticket` and `connect` are all network I/O. The helpers are modelled only up to the request they would send.
- The subscription-key header is left out. It is built from `api_key` by string formatting, and that value is looked up through the client's dynamic attribute forwarding.
- Etoro.PostRequest: the payload is a list of pairs or `None`. The docstring allows a `str` payload, on which `add_url` would call `.items()` and raise `AttributeError`; that error is not modelled.
- Etoro.UrlWithParams: Python 2 string-type errors are not modelled. Strings are sequences of characters here. In the source, `'{}={}'.format(k, v)` raises `UnicodeEncodeError` for a `unicode` key or value with a non-ASCII character. `base_url += ...` raises `UnicodeDecodeError` when a `unicode` base meets a non-ASCII byte string.
- Etoro.GetRequest: the API base URL is a parameter. The source reads it as `self.api_url` through the client's `__getattr__` forwarding to the credential store. That forwarding yields `None` for a missing key, which makes `None + endpoint` raise. The model does not capture that error.
- `connect` calls `_get_granting_location`, which is never defined; because of the `__getattr__` forwarding this only shows up at run time. It is not modelled.
- The recursive wrapping in `JsonWrap.__init__` is not modelled. It calls `JsonWrap(**v)`, which does not match the one-argument constructor. It is never reached by `Behavior.__or__`, whose only entry is a list. Floating-point JSON values are not modelled.
- CredentialStore.LoadItems: it is about a section whose pairs already are a dictionary's items. Writing the dictionary with `create_config_file` and reading it back with `load` can change it, and the model does not capture that. Python 2's `ConfigParser` lower-cases keys on write and on read. It strips whitespace around keys and values, cuts a value at ` ;`, splits a key at `:` or `=`, and expands `%` interpolation on read.
- File and console I/O is not modelled: `config_exists`, `create_config_file` and the `ConfigParser` reading in `load` (including its lower-casing of option names and `%` interpolation). The same goes for `os.mkdir` of the credential directory, `os.path.expanduser` (the home directory is a parameter), the `raw_input` confirmation and abort flow of `configure`, and logging. A section is modelled as the list of pairs `ConfigParser.items` returns, and console input as the list of answers read.
- CredentialStore.Credentials.ToString: the Python 2 `UnicodeEncodeError` that `"{}: {}".format(k, v)` raises for a non-ASCII `unicode` key or value is not modelled. Its contract says nothing beyond the empty case when a key or value holds a newline, which a `ConfigParser` continuation line can produce. The text is still the newline-join that `Render` and `RenderConcat` describe, but splitting it at newlines does not give one line per entry.
- CredentialStore.Credentials.Load: `config.items` raises `NoSectionError` when the profile section is missing, including when `config.read` found no file. That error is not modelled, because the section is an input here.
- CredentialStore.Credentials.Get models `__getattr__` only. Python calls it only for names that are not ordinary attributes of the object, so `name`, `credentials` or `add` never reach a credential of that name. That shadowing is not modelled.
- Keys and values are modelled as strings. The source would format other Python values with `str()`.
