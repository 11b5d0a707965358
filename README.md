# Hello-function handlers, modelled in Dafny

The repository ships two sample serverless functions that do the same job, one
in Go and one in Python. Each takes the invocation parameters the function
platform passes in and does three things:

- it works out a display name through a fallback chain, an HTTP method and a
  request path;
- it dispatches on the method: GET, POST, or anything else;
- it returns a record of status code, headers and body.

GET answers 200 with a greeting. POST answers 200 and echoes the data it was
sent. Any other method answers 405. The model states each handler as a pure
function of its input and of the current time, which is an opaque string
parameter `now`. `PyHello.Main` also takes `showContainer`, a function that
stands for Python's `str()` of a list or a dictionary. The model proves the
name precedence, the defaults and each of the three branches. It also proves
where the two versions differ.

Files:

- `invocation.dfy` (module `Invocation`): JSON values, the `Response` record,
  the two headers every response carries, and the 405 body both handlers
  share. Both handlers fill text templates with one hole (`"Hello %s!"`,
  `"Method %s not allowed"`). `Fill` and `Hole` write and read such a template,
  and lemmas prove that the hole can be read back and that the text contains it.
- `go_hello.dfy` (module `GoHello`): the `Event` struct and `Main`. Go's nil
  maps are `None`, so a nil map and an empty one stay distinct.
- `py_hello.dfy` (module `PyHello`): `main(args)` over a dictionary of JSON
  values. The result is either `Ok(response)` or
  `Err(AttributeError(...))`. The f-strings render values with Python's
  `str()`, which is modelled for strings, `None`, booleans and integers.
- `divergence.dfy` (module `Divergence`): the same request given to both
  handlers.

The Python handler can raise. `args.get('query', {}).get('name', 'World')`
evaluates the inner lookup first, so a `query` that is present but is not a
dictionary raises `AttributeError`, even when `name` is given. `PyHello.Main`
returns `Err` in exactly that case.

## Model

| member | source | states |
|---|---|---|
| `GoHello.Main` | examples/do-function/example-go-project/packages/sample/hello/main.go:27-109 | every response has status 200 or 405, exactly the JSON and CORS headers, and an object body; it is 200 exactly when the resolved method is GET or POST, and 405 exactly when the Method field is non-empty and is neither "GET" nor "POST" |
| `GoHello.QueryName` | examples/do-function/example-go-project/packages/sample/hello/main.go:33-37 | the query name is present exactly when the query map is non-nil and holds a string under "name", and then it is that string; `GoHello.NamePrecedence` uses it |
| `GoHello.ResolveName` | examples/do-function/example-go-project/packages/sample/hello/main.go:29-39 | the name is the Name field, the string query name or "stranger", and a non-empty Name is always the one used; `GoHello.NamePrecedence` states the full precedence |
| `GoHello.ReceivedData` | examples/do-function/example-go-project/packages/sample/hello/main.go:76-81 | the echoed data is an object; it holds exactly the body map when that map is non-nil, and otherwise only the key "name", bound to the resolved name |
| `GoHello.ResolveMethod` | examples/do-function/example-go-project/packages/sample/hello/main.go:42-45 | the resolved method is never empty; `GoHello.MethodAndPathDefaults` states when each value applies |
| `GoHello.ResolvePath` | examples/do-function/example-go-project/packages/sample/hello/main.go:47-50 | the resolved path is never empty; `GoHello.MethodAndPathDefaults` states when each value applies |
| `GoHello.NamePrecedence` | examples/do-function/example-go-project/packages/sample/hello/main.go:29-39 | a non-empty Name wins; otherwise a string `query["name"]` wins, even an empty one; the name is "stranger" exactly when Name is "stranger", or Name is empty and there is no string query name other than "stranger" |
| `GoHello.NonStringQueryNameIgnored` | examples/do-function/example-go-project/packages/sample/hello/main.go:34-37 | a query name that is not a string is ignored without error: the name stays "stranger" and a default GET greets "Hello stranger!" |
| `GoHello.NilQueryLikeEmptyQuery` | examples/do-function/example-go-project/packages/sample/hello/main.go:33-34 | a nil query map gives the same response as an empty one |
| `GoHello.MethodAndPathDefaults` | examples/do-function/example-go-project/packages/sample/hello/main.go:42-50 | the method is "GET" exactly when the field is empty or "GET", and the path is "/" exactly when the field is empty or "/"; a non-empty field passes through unchanged |
| `GoHello.Greeting` | examples/do-function/example-go-project/packages/sample/hello/main.go:65 | "Hello %s!" is 7 characters longer than the name; `GoHello.GreetingDeterminesName` states that the name reads back from it |
| `GoHello.GreetingDeterminesName` | examples/do-function/example-go-project/packages/sample/hello/main.go:65 | the name can be read back from "Hello %s!", and two names give the same greeting only if they are equal |
| `GoHello.GetGreets` | examples/do-function/example-go-project/packages/sample/hello/main.go:57-71 | GET gives 200 and a body with exactly the keys message, timestamp, method, path, runtime and language; the message is "Hello " + name + "!", the method is "GET", the path is the resolved path, the runtime is "Go (go:default)" and the language is "golang" |
| `GoHello.PostEchoes` | examples/do-function/example-go-project/packages/sample/hello/main.go:74-94 | POST gives 200 and a body with exactly the keys message, receivedData and timestamp; receivedData is the body map when it is non-nil, even when empty, and otherwise `{"name": name}` |
| `GoHello.OtherMethodsRejected` | examples/do-function/example-go-project/packages/sample/hello/main.go:96-107 | any other non-empty method gives 405 and a body with exactly the keys error and allowedMethods; the error is "Method " + method + " not allowed" and contains the method; allowedMethods is ["GET","POST"] |
| `GoHello.ExamplesGreet` | examples/do-function/example-go-project/packages/sample/hello/main.go:29-71 | an empty event greets "Hello stranger!"; a query name greets "Hello Ada!"; a non-empty Name overrides the query name |
| `GoHello.ExamplesReject` | examples/do-function/example-go-project/packages/sample/hello/main.go:96-107 | "get" is rejected with 405 because the comparison is case-sensitive; DELETE gets "Method DELETE not allowed" |
| `PyHello.Main` | examples/do-function/example-python-function/main.py:1-59 | the handler raises exactly when `query` is present and is not a dict, and then raises AttributeError naming the query's type and `get`; a returned response has status 200 or 405, exactly the JSON and CORS headers, and an object body; it is 200 exactly when the resolved method is 'GET' or 'POST' |
| `PyHello.CallGet` | examples/do-function/example-python-function/main.py:10 | calling `.get` fails exactly when the receiver is not a dict |
| `PyHello.ResolveName` | examples/do-function/example-python-function/main.py:10 | the lookup raises exactly when `query` is present and is not a dict, and then raises AttributeError naming the query's type and `get`; otherwise the name is 'World' or a value taken from `args` or from `args['query']`; `PyHello.NamePrecedence` states the order |
| `PyHello.ResolveMethod` | examples/do-function/example-python-function/main.py:11 | the method is 'GET' or a value present in `args`; `PyHello.MethodAndPathDefaults` states when each applies |
| `PyHello.ResolvePath` | examples/do-function/example-python-function/main.py:12 | the path is '/' or a value present in `args`; `PyHello.MethodAndPathDefaults` states when each applies |
| `PyHello.ReceivedData` | examples/do-function/example-python-function/main.py:35 | the echoed data is the whole `args` mapping or a value present in it, and it is the whole mapping when there is no `body` key; `PyHello.PostEchoes` states that `args['body']` is used when present |
| `PyHello.Str` | examples/do-function/example-python-function/main.py:27 | the f-string puts a string in as it is; an integer's rendering reads back to that integer; a list or dict is rendered by `showContainer` |
| `PyHello.NamePrecedence` | examples/do-function/example-python-function/main.py:10 | a present `name` key wins whatever its value, even ''; otherwise `query['name']` is used; when neither key gives a name, the name is 'World'; and the name is 'World' exactly when the winning value is the string 'World' or no key gives a name |
| `PyHello.MethodAndPathDefaults` | examples/do-function/example-python-function/main.py:11-12 | the method is 'GET' exactly when the key is absent or holds 'GET', and the path is '/' exactly when the key is absent or holds '/'; a present key passes its value through, an empty one too |
| `PyHello.Digits` | examples/do-function/example-python-function/main.py:27 | `str()` of a natural number is a non-empty string of decimal digits that starts with '0' only for zero |
| `PyHello.IntStr` | examples/do-function/example-python-function/main.py:27 | `str()` of an integer is non-empty and starts with '-' exactly when the integer is negative; `PyHello.IntStrRoundTrip` states that it reads back |
| `PyHello.DigitsRoundTrip` | examples/do-function/example-python-function/main.py:27 | reading the digits back gives the number |
| `PyHello.IntStrRoundTrip` | examples/do-function/example-python-function/main.py:27 | reading `str()` of an integer back gives the integer, so distinct integers render distinctly |
| `PyHello.StrProperties` | examples/do-function/example-python-function/main.py:27 | `str()` of a string is the string itself, and integers with equal renderings are equal |
| `PyHello.Greeting` | examples/do-function/example-python-function/main.py:27 | 'Hello, {…}!' is 8 characters longer than the rendered name; `PyHello.GreetingDeterminesName` states that the rendered name reads back from it |
| `PyHello.GreetingDeterminesName` | examples/do-function/example-python-function/main.py:27 | the rendered name `str(name)` can be read back from 'Hello, {…}!', and two rendered names give the same greeting only if they are equal |
| `PyHello.RenderedNamesCollide` | examples/do-function/example-python-function/main.py:27 | names of different types can render alike, so they get the same response: a name of 1 and a name of '1' both greet 'Hello, 1!', and null and 'None' get the same response |
| `PyHello.GetGreets` | examples/do-function/example-python-function/main.py:19-33 | GET returns 200 and a body with exactly the keys message, timestamp, method, path and language; the message is 'Hello, ' + str(name) + '!', the method is 'GET', the path is the resolved path and the language is 'Python' |
| `PyHello.PostEchoes` | examples/do-function/example-python-function/main.py:34-47 | POST returns 200 and a body with exactly the keys message, receivedData and timestamp; receivedData is `args['body']` when the key is present, and otherwise the whole `args` mapping, unchanged |
| `PyHello.OtherMethodsRejected` | examples/do-function/example-python-function/main.py:48-59 | any other method value returns 405 and a body with exactly the keys error and allowedMethods; the error is 'Method ' + str(method) + ' not allowed' and contains str(method); allowedMethods is ['GET','POST'] |
| `PyHello.EmptyMethodRejected` | examples/do-function/example-python-function/main.py:11 | a present but empty method is not defaulted: the request gets 405 and the error 'Method  not allowed' |
| `PyHello.ExamplesGreet` | examples/do-function/example-python-function/main.py:10-33 | `{}` greets 'Hello, World!'; `{"name": "Ada", "__ow_method": "GET"}` greets 'Hello, Ada!' |
| `PyHello.ExamplesRenderName` | examples/do-function/example-python-function/main.py:27 | a name of -42 greets 'Hello, -42!', and a name of null greets 'Hello, None!' |
| `PyHello.ExamplesOther` | examples/do-function/example-python-function/main.py:34-59 | a POST with body `{"x": 1}` echoes `{"x": 1}`; DELETE gets 'Method DELETE not allowed'; a string query raises AttributeError('str', 'get') even when a name is given |
| `Invocation.NotAllowedError` | examples/do-function/example-go-project/packages/sample/hello/main.go:104 | "Method %s not allowed" is 19 characters longer than the method; `Invocation.NotAllowedNamesMethod` states that the method reads back from it |
| `Invocation.NotAllowedBody` | examples/do-function/example-python-function/main.py:55-58 | the 405 body is an object with exactly the keys error and allowedMethods; the error is a string 19 characters longer than the method, and allowedMethods is ['GET','POST'] |
| `Invocation.NotAllowedNamesMethod` | examples/do-function/example-go-project/packages/sample/hello/main.go:104 | the 405 error text contains the method, and the method can be read back from it |
| `Invocation.FillContainsHole` | examples/do-function/example-python-function/main.py:56 | a filled template contains the value put in its hole |
| `Divergence.EmptyMethodDiverges` | examples/do-function/example-python-function/main.py:11 | an empty method gets 200 (the GET default) from Go and 405 from Python |
| `Divergence.SameDispatchOnNonEmptyMethod` | examples/do-function/example-go-project/packages/sample/hello/main.go:56-107 | for the same non-empty method string both handlers return the same status, and when they reject the method they send the same 405 body |
| `Divergence.GreetingsNeverCoincide` | examples/do-function/example-python-function/main.py:27 | the Go greeting "Hello %s!" and the Python greeting 'Hello, {name}!' never give the same text, whatever the names |

## Left out

- Timestamps: `time.Now().Format(time.RFC3339)` and `datetime.now().isoformat()` read the clock. Both are the opaque parameter `now`.
- Logging: `fmt.Printf` in Go, and `print` with `json.dumps(args)` in Python. They write to the log and do not affect the result.
- Go's unused `context.Context` parameter is not modelled.
- JSON decoding of the Go `Event` and encoding of `Response` through struct tags are library behaviour, as are the `omitempty` options. A JSON `null` in `name`, `__ow_method` or `__ow_path` decodes to the empty string, which the model covers as the empty field. Any other non-string value there fails in decoding, before `Main` runs. A JSON `null` in `query` or `body` decodes to a nil map, which the model represents as `None`; any value there that is not an object fails in decoding.
- JSON numbers are integers. Fractional numbers, Go's float64 and Python's float are not modelled.
- PyHello.Str: `str()` of a list or a dict is the parameter `showContainer`. Python's repr of containers depends on dict order and string quoting, which the model does not capture.
- Python's `args` is a dictionary of strings to JSON values. The platform always passes a dictionary, so a non-dict `args` is not modelled. Since the model works on values, `args` cannot be modified.
- local/webhook/server.go is not part of this model. It is HTTP plumbing around `encoding/json` and `net/http`.
