# Multi-Agent sales assistant: a Dafny model of its control logic

The system answers a shop customer's question with a chain of language-model agents:
- an **analysis** agent classifies the query;
- an **inventory** agent looks products up through an MCP tool server;
- an **order** agent places an order through the same server;
- a **consultant** agent writes the final Vietnamese answer.

There are three coordinators. The plain pipeline (`MultiAgents`), the ReAct pipeline (`MultiAgentsReAct`) and the agent-card pipeline (`A2APipeline`) all run the fixed sequence analysis → optional inventory → optional order → consultant. Which optional stage runs depends on the parsed analysis flags. Each stage that runs appends one record to the `agent_outputs` audit list, and the run ends with a result envelope.

This project models the deterministic logic around the model calls, and proves what it promises:
- the ReAct tool-call parser and its brace scanner, the tool table and the bounded tool-calling loop;
- the two A2A handlers, with their product fallback, inventory record, order payload, validity guard and order-id heuristic;
- the MCP clients' retry-with-backoff loop, and the MCP server's order validation, normalisation and lookup;
- `submit_order`, both agent registries, the service URLs, the metrics collector and the pydantic schemas.

Modelling devices:
- **Agents** are oracles. A plain agent is a function from its prompt to its reply, or to the exception its run raises (`InvokeAgents.Runner`). An agent in a ReAct tool loop is a function from every prompt sent to its session so far to its latest reply or exception (`PipelineReact.Conversation`). Every pipeline catches, swallows or propagates that exception exactly where the source does.
- **`json.loads` / `json.dumps`** are library code, bundled as the oracle `Json.Codec`. `loads` may fail with an error text. `dumps` takes the `ensure_ascii` / `indent` style.
- **Python dicts** are association lists in insertion order (`PyDict.Entries`). Storing an existing key replaces its value in place, so `list(d)` and `d.values()` keep their Python order.
- **MCP round trips.** Each call ends in one of the `McpClient.Attempt` outcomes `TimedOut`, `ConnectionFailed`, `Failed` or `Replied`, given by the oracle `McpClient.Transport` for each attempt number. Sleeps are returned as a list of seconds instead of being slept.
- **Randomness and clocks.** Every `uuid4()` draw and every clock reading is a parameter. The `orders` directory is a map from file name to content. The product database is an oracle.
- **Exceptions** that the source raises and catches are modelled as `Result` values carrying the exception's text.
- **Methods and specifications.** Each imperative operation (the brace scan, the retry loop, the tool loop, the pipelines' `run`, the registries, the metrics collector) is a `method` or a `class`. Each is proved equal to a reference function of its inputs, and the lemmas beside it state what that function promises.

## Model

| member | source | states |
|---|---|---|
| `ReactExecutor.ExtractJsonFromText` | src/utils/react_executor.py:61-91 | The brace-counter loop returns exactly `Extracted(text)`. That is None unless the text starts with `{`; otherwise the prefix that ends where the quote- and escape-aware depth first returns to 0, or None when it never does. |
| `ReactExecutor.CloseSearch` | src/utils/react_executor.py:70-91 | Returns the least scan position at or after `n` where the unquoted depth is 0. None means the depth is non-zero at every position from `n` to the end. |
| `ReactExecutor.DepthPositive` | src/utils/react_executor.py:83-89 | Between the opening brace and the first return to depth 0, the depth stays at least 1. |
| `ReactExecutor.ExtractedShape` | src/utils/react_executor.py:63-91 | A returned object is a prefix of the text of length at least 2. It starts with `{`, ends with `}`, and ends at the first position where the depth is 0. |
| `ReactExecutor.ExtractedNeedsBrace` | src/utils/react_executor.py:63-64 | Text that is empty or does not start with `{` yields None. |
| `ReactExecutor.ExtractedUnbalanced` | src/utils/react_executor.py:83-91 | If the unquoted depth never returns to 0, the result is None. |
| `ReactExecutor.QuotedAndEscapedKeepDepth` | src/utils/react_executor.py:71-81 | A character that follows a backslash, or a non-quote inside a string literal, leaves the depth unchanged. |
| `ReactExecutor.ArgsStartAt` | src/utils/react_executor.py:39-44 | The `(\{.+)` group of an `ARGS:` match starts at a `{` inside the text. |
| `ReactExecutor.FindToolCall` | src/utils/react_executor.py:32-35 | `re.search` for `TOOL_CALL:\s*(\w+)`, ignoring case. A found position is a match with no match before it; None means no match anywhere. |
| `ReactExecutor.FindArgs` | src/utils/react_executor.py:39-42 | `re.search` for `ARGS:\s*(\{.+)`, ignoring case, with `.` matching newlines. It returns the leftmost match, and None means no match anywhere. |
| `ReactExecutor.ParseToolCall` | src/utils/react_executor.py:21-59 | `parse_tool_call` returns `ToolCallOf`. With no marker, no `ARGS:`, no balanced object or undecodable JSON there is no call. Arguments that decode to a non-object raise the `AttributeError` of `args.keys()`. Otherwise the result names the tool and carries the decoded arguments. |
| `ReactExecutor.NoMarkerNoCall` | src/utils/react_executor.py:32-35 | Text with no case-insensitive `TOOL_CALL:<spaces><word>` gives no call. |
| `ReactExecutor.NoArgsNoCall` | src/utils/react_executor.py:39-42 | A marker without an `ARGS:` followed by `{` and at least one more character gives no call. |
| `ReactExecutor.CallNamesFirstMarker` | src/utils/react_executor.py:32-52 | A found call's name is the word after the first `TOOL_CALL:` match. Its arguments are the codec's decoding of the balanced object cut from the stripped `ARGS:` section. |
| `ReactExecutor.UnknownTool` | src/utils/react_executor.py:106-109 | An unknown name gives `{"error": m}`. `m` quotes the tool's name and every available tool name. The result is the same whatever the tool functions do, since none is invoked. |
| `ReactExecutor.BadArgumentsNotRun` | src/utils/react_executor.py:113-121 | Arguments that do not bind to the tool's parameters give an `argument error` text, and the tool function is never consulted. |
| `ReactExecutor.ToolRunOutcome` | src/utils/react_executor.py:113-125 | A tool's returned text is passed on as is. A `TypeError` it raises becomes an `argument error` object, and any other exception becomes an `execution error` object. |
| `ReactExecutor.BindErrorMeaning` | src/utils/react_executor.py:115-121 | `f(**args)` raises a `TypeError` unless the argument keys are exactly the tool's parameters (both inclusions). |
| `ReactExecutor.FirstUnexpectedMeaning` | src/utils/react_executor.py:115-121 | The unexpected keyword that is reported is a key that is not a parameter. It is absent exactly when every key is a parameter. |
| `ReactExecutor.ProcessAgentOutput` | src/utils/react_executor.py:127-152 | `original_output` is the input. `tool_called` holds exactly when parsing found a call. Then `tool_name` is the call's name and `tool_result` is `execute_tool`'s text; otherwise both are None. A parse failure propagates. |
| `ReactExecutor.PipelineExecutor` | src/utils/react_executor.py:155-174 | The pipeline's table names exactly `check_inventory_detail` and `create_customer_order`, in that order, without duplicates. |
| `McpClient.FirstReply` | src/tools/create_order.py:17-50 | Returns the first attempt in the range that replies with non-empty text, with no such attempt before it. None means every attempt in the range failed. |
| `McpClient.RetryCall` | src/tools/create_order.py:15-65 | The shared retry loop returns `RetryOutcome`: the first non-empty reply, or else `last_error` after the final attempt. Its list of sleeps is `RetryWaits`. |
| `McpClient.RetryOutcomeMeaning` | src/tools/create_order.py:17-60 | The loop succeeds exactly when some attempt within `max_retries` replies with text, and it returns the first such reply. With no attempt budget, `last_error` stays None. |
| `McpClient.RetryWaitsBound` | src/tools/create_order.py:62-65 | The i-th sleep is `2 ** i` seconds. There is no sleep after the last attempt, so there are fewer sleeps than attempts, and the total is `2 ** s - 1` for `s` sleeps. |
| `McpClient.DefaultBudgetWaits` | src/tools/create_order.py:62-65 | With three attempts that all fail, the sleeps are exactly 1 and then 2 seconds. |
| `CreateOrder.CreateOrderAsync` | src/tools/create_order.py:9-69 | `create_order_async` returns the first reply text of `create_order`, or the exhaustion message. It sleeps as the retry loop does. |
| `CreateOrder.OrderReplyFirstText` | src/tools/create_order.py:43-48 | The first non-empty reply is returned even when it reports an error. It is not retried. |
| `CreateOrder.OrderReplyExhausted` | src/tools/create_order.py:52-69 | When every attempt fails, the text is the exhaustion message carrying the last attempt's error: `Timeout after {timeout}s`, `Connection error: ...`, the exception text, or `Empty response from server`. |
| `CreateOrder.ExhaustedMessageIsError` | src/tools/create_order.py:67-69 | The exhaustion message starts with `Error: `. |
| `CreateOrder.CreateCustomerOrder` | src/tools/create_order.py:86-119 | A string argument is decoded first. A decoding failure is reported as `Error: Invalid JSON string - ...`; anything else is sent with the default three attempts and 15-second timeout. |
| `CreateOrder.CustomerOrderString` | src/tools/create_order.py:105-111 | An undecodable string gives the invalid-JSON error whatever the server would do, because nothing is sent. A decodable string is sent as the decoded value. |
| `GetProducts.ProductQueryShape` | src/tools/get_products.py:22-26 | The MCP arguments are a duplicate-free dict that starts with `product`. It names `storage` and `color` exactly when they are truthy. |
| `GetProducts.GetProductInfoAsync` | src/tools/get_products.py:9-72 | `get_product_info_async` returns the first reply text of `get_product_info`. Otherwise it returns the JSON error object whose message counts the attempts and carries the last error. It sleeps as the retry loop does. |
| `GetProducts.CheckInventoryDetail` | src/tools/get_products.py:90-118 | Blank filters are mapped to None before the lookup. A filter whose `strip` raises gives the `Failed to check inventory:` error object. |
| `GetProducts.BlankFilterIsAny` | src/tools/get_products.py:107-108 | A filter becomes None exactly when it is falsy or an all-whitespace string. A filter that is kept is sent unchanged. |
| `GetProducts.StripEmptyIffSpace` | src/tools/get_products.py:107-108 | `s.strip()` is empty exactly when every character of `s` is whitespace. |
| `InvokeAgents.JsonLoadCases` | src/handlers/invoke_agents.py:41-51 | `_json_load` returns a dict unchanged and maps a falsy value to `{}`. A non-empty string becomes its parse, or `{"raw": s}` when it is no JSON; any other value becomes `{"raw": v}`. Only a string that parses to a non-dict gives a non-dict, and loading a loaded dict again changes nothing. |
| `InvokeAgents.IndexOf` | src/handlers/invoke_agents.py:89 | Returns the leftmost occurrence of a character at or after a position, or None when there is none. |
| `InvokeAgents.LastIndexOf` | src/handlers/invoke_agents.py:89 | Returns the rightmost occurrence of a character before a position, or None when there is none. |
| `InvokeAgents.BraceSpan` | src/handlers/invoke_agents.py:89-93 | The greedy `\{.*\}` with DOTALL matches exactly when some `}` follows some `{`. The match runs from the first `{` to the last `}`. |
| `InvokeAgents.ProductFallback` | src/handlers/invoke_agents.py:86-106 | The product asked for is the one the agent's reply names (`product_name`, else `product`), else the context's `product_details`, else the query. With a dict context the step never fails. With a non-dict context it raises exactly when the reply names no product. |
| `InvokeAgents.ProseReplyIgnored` | src/handlers/invoke_agents.py:87-98 | A non-empty reply that is no JSON is loaded as `{"raw": reply}`. Its braces are never searched, and it names the empty product. |
| `InvokeAgents.FirstProductDescribed` | src/handlers/invoke_agents.py:119-130 | With a non-empty product list, the first product is described. Its status is `in_stock` exactly when its quantity is positive, else `out_of_stock`. Price and quantity default to 0, and a missing product name falls back to the one asked for. |
| `InvokeAgents.NoProductsNotFound` | src/handlers/invoke_agents.py:131-140 | Missing, empty or non-list products give `stock_status` `unknown`, price 0, quantity 0 and the error `Product not found`. |
| `InvokeAgents.RecordNamesProduct` | src/handlers/invoke_agents.py:119-158 | Every inventory record starts with `product_name`, `storage`, `color` and `stock_status`. It is an error record, or it echoes the parameters asked for, or it describes a found product as in or out of stock. |
| `InvokeAgents.HandleInventoryAgentCall` | src/handlers/invoke_agents.py:54-161 | The handler runs its steps in order and returns `InventoryReplyOf`. The remote agent sees the query and the loaded context, and an exception from its run is raised by the handler. The MCP lookup asks for the parameters of step 2, and the result is the record built from the loaded MCP reply. |
| `InvokeAgents.PayloadFromSources` | src/handlers/invoke_agents.py:208-219 | For dict sources, product, colour and storage come from the inventory record when it has them truthy, else from the reply. `quantity` defaults to 1 only when the key is absent. `total_price` is the inventory price (default 0) times that quantity. |
| `InvokeAgents.OrderIdSearch` | src/handlers/invoke_agents.py:245 | Returns the leftmost position where `order_([a-f0-9]+)_` matches, or None when it matches nowhere. |
| `InvokeAgents.OrderIdAtShape` | src/handlers/invoke_agents.py:245-247 | A match spans `order_`, a non-empty run of lower-case hex digits taken whole, and `_`. |
| `InvokeAgents.OrderIdMeaning` | src/handlers/invoke_agents.py:242-247 | The id is `unknown` exactly when the reply holds no `order_<hex>_`. Otherwise it is `order_<hex>` for the leftmost occurrence. |
| `InvokeAgents.HandleOrderAgentCall` | src/handlers/invoke_agents.py:164-274 | The handler returns `OrderReplyOf`: the exception of the remote agent's run, or the serialised order record. A failure to read the reply or build the payload gives the parse-error record. A payload without a product or with a zero total gives the guard record. Otherwise the created-order record is built from the order tool's reply. |
| `InvokeAgents.BlockedNotSent` | src/handlers/invoke_agents.py:222-227 | For an agent reply whose payload has an empty product or a zero total, the order record has `order_created` false and the `Missing product or price information` error. The record is the same whatever the transport would do. |
| `InvokeAgents.CreatedReplyFields` | src/handlers/invoke_agents.py:249-263 | `order_created` holds exactly when the tool's reply contains "success" in any case. The message is that reply, the customer info is the payload's, and there is no error field. |
| `InvokeAgents.SentOrderReported` | src/handlers/invoke_agents.py:237-263 | For an agent reply whose payload passes the guard, the payload is sent as it is, with the default retry budget, and the order record is built from the tool's reply. |
| `InvokeAgents.InventoryHandlerRaises` | src/handlers/invoke_agents.py:67-106 | The inventory handler raises exactly the agent run's exception when that run raises, since the call is outside any `try`. Past the agent it raises exactly when the context is not a dict and the reply names no product, from the fallback inside the `except` branch. |
| `InvokeAgents.OrderHandlerRaises` | src/handlers/invoke_agents.py:178-274 | The order handler raises exactly when the remote agent's run raises, with that exception. Otherwise it returns the serialised order record built from the agent's reply. |
| `OrderAgent.SubmitOrder` | src/a2a_services/order_agent.py:35-55 | A truthy non-dict argument raises on `setdefault`. Otherwise `order_id` is added as `order_` + 8 hex only when absent, and every other key is kept. The order tool is called once, with that payload. A non-JSON reply is normalised to `{"message": raw}`. `status` is kept when present, else set to success exactly when the reply says "success" in any case. `order_payload` and `raw` are the payload and the reply. The call fails exactly when the reply decodes to a non-dict. |
| `McpServer.MissingFrom` | mcp_server.py:73-74 | The comprehension lists exactly the required fields that are not in the data, and never more fields than it was given. |
| `McpServer.OrderDirectory.constructor` | mcp_server.py:61-63 | The directory model starts with the given existence flag and files. A missing directory holds no files. |
| `McpServer.OrderDirectory.CreateOrder` | mcp_server.py:55-108 | The `orders` directory exists afterwards. A rejected order leaves the files unchanged and returns the rejection text. An accepted order is written to its file name as indent-4 JSON, and the reply names `orders/<file name>`; no other file changes. |
| `McpServer.FirstMatch` | mcp_server.py:118-119 | Returns the first listed name at or after a position that starts with `order_` + id and ends with `.json`. None means no listed name fits. |
| `McpServer.OrderDirectory.GetOrder` | mcp_server.py:111-127 | The listing is scanned in order. The first fitting file's content is returned as `file_content`. With no fitting file the result is the 404 object, and with a missing directory the 500 object. |
| `McpServer.NonDictRefused` | mcp_server.py:67-68 | A non-dict argument is refused with a text naming its Python type. |
| `McpServer.UnwrapOnce` | mcp_server.py:70-76 | `order_details` is unwrapped exactly one level. A doubly wrapped order is missing every required field, and they are listed in the fixed order. |
| `McpServer.MissingInFixedOrder` | mcp_server.py:73-76 | The missing fields are exactly the absent required ones. They are listed in the order product, color, storage, quantity, total_price, customer_info. |
| `McpServer.AcceptedExactly` | mcp_server.py:67-94 | An order is accepted exactly when the examined data is a dict holding every required field and its `customer_info` is a dict. |
| `McpServer.AcceptedOrder` | mcp_server.py:78-101 | An accepted order's id is `order_` + 16 lower-case hex characters, its record is the standardised order, and its file is `<order_id>_<conversation_id>.json`. |
| `McpServer.OrderDefaults` | mcp_server.py:80-94 | Absent keys take their defaults: product, colour and storage `Unknown ...`, quantity 1, price 0, customer name `Guest`, a fresh uuid as conversation id, and the fixed Vietnamese message. |
| `McpServer.CreatedOrderIsFound` | mcp_server.py:99-119 | A written order's file name fits its own id's hex part. Once that name is listed, `get_order` finds a file. |
| `McpServer.ProductInfoStatus` | mcp_server.py:141-160 | With a database, the status is `not_found` exactly when it returns no product. The status is `success` exactly when it returns some, and those products are returned in full. |
| `AgentsA2A.NewCard` | src/agents/agents_a2a.py:12-22 | A card built without the optional fields has no endpoint, version `1.0.0` and no metadata. |
| `AgentsA2A.LowerIdempotent` | src/agents/agents_a2a.py:54 | Lower-casing twice is lower-casing once. |
| `AgentsA2A.JsonTypeMapping` | src/agents/agents_a2a.py:43-54 | Each of the six JSON type names maps to its own GenAI type, in any case. Any other name maps to STRING. |
| `AgentsA2A.PropertiesOf` | src/agents/agents_a2a.py:33-39 | The parameter map has exactly the `input_schema` keys, in order, each mapped through its schema. It fails exactly when some entry's schema is not a dict or has a non-string type. |
| `AgentsA2A.DeclarationShape` | src/agents/agents_a2a.py:24-41 | A declaration takes the card's name. Its description starts with the role and `\n\nCapabilities: ` and contains every capability. It has one parameter per `input_schema` key, in order, and a schema without a type gives STRING. |
| `AgentsA2A.OtherCards` | src/agents/agents_a2a.py:116-119 | The cards under names other than the given one are never more than the registry holds. |
| `AgentsA2A.DeclarationsOf` | src/agents/agents_a2a.py:116-120 | A successful list has one declaration per card, in order, each that card's `to_function_declaration`. |
| `AgentsA2A.AgentRegistry.constructor` | src/agents/agents_a2a.py:68-71 | A new registry holds no cards, runners or handlers. |
| `AgentsA2A.AgentRegistry.GetCard` | src/agents/agents_a2a.py:95-97 | `get_card` is None exactly for an unregistered name. A found card carries the name it was looked up by. |
| `AgentsA2A.AgentRegistry.GetRunner` | src/agents/agents_a2a.py:103-105 | `get_runner` is None exactly for an unregistered name. |
| `AgentsA2A.AgentRegistry.GetHandler` | src/agents/agents_a2a.py:99-101 | `get_handler` is None exactly for an unregistered name. |
| `AgentsA2A.AgentRegistry.ListAgents` | src/agents/agents_a2a.py:107-109 | `list_agents` has one card per registered name, in the order of the registry's keys. Each listed card is the one `get_card` returns for its name. |
| `AgentsA2A.AgentRegistry.Register` | src/agents/agents_a2a.py:73-89 | After `register`, the card, runner and handler are those just given (last write wins). Every other name's entries are unchanged. A re-registered name keeps its position, and a new one goes last. The three dicts keep the same keys, and each card sits under its own name. |
| `AgentsA2A.AgentRegistry.GetAgentDeclarationsFor` | src/agents/agents_a2a.py:111-120 | The loop returns the declarations of every card under a name other than the given one, in registry order. It stops at the first card whose declaration fails. |
| `AgentsA2A.DeclarationStep` | src/agents/agents_a2a.py:117-119 | One step of the loop: the given name is skipped. Any other card adds its declaration or ends with its failure. |
| `AgentsA2A.FailureAt` | src/agents/agents_a2a.py:117-119 | A failure at one card is the failure of the whole loop. |
| `AgentsA2A.FailureStays` | src/agents/agents_a2a.py:116-120 | Once a card's declaration fails, any longer list of cards fails with that first failure. |
| `AgentsA2A.OtherCardsNames` | src/agents/agents_a2a.py:111-120 | The declared cards are exactly the registered names other than the given one, each once. There is one fewer than the registry holds when the name is registered. |
| `AgentsA2A.CardNamed` | src/agents/agents_a2a.py:87 | In a registry where each card sits under its own name, a card found by name carries that name. |
| `AgentsA2A.PutKeepsNames` | src/agents/agents_a2a.py:87 | Storing a card under its own name keeps every card under its own name. |
| `AgentsA2A.OtherCardsAppend` | src/agents/agents_a2a.py:117-119 | Filtering out one name distributes over concatenation of the registry's entries. |
| `AgentsA2A.OtherCardsSnoc` | src/agents/agents_a2a.py:117-119 | One more entry adds its card exactly when its name is not the excluded one. |
| `AgentsA2A.InventoryCardDeclares` | src/agents/agents_a2a.py:177-204 | The inventory card's declaration is `inventory_agent` with the STRING parameters `query` and `context`, in that order. |
| `AgentsA2A.OrderCardDeclares` | src/agents/agents_a2a.py:235-264 | The order card's declaration is `order_agent` with the STRING parameters `query`, `inventory_info` and `customer_info`, in that order. |
| `Routes.CardUrlsDistinct` | src/agents/routes.py:11-16 | Services on different ports never share an agent-card URL. |
| `Routes.AgentRegistry.constructor` | src/agents/routes.py:25-27 | A new registry holds no agents and no handlers. |
| `Routes.AgentRegistry.GetAgent` | src/agents/routes.py:49-51 | `get_agent` is None exactly for an unregistered name. |
| `Routes.AgentRegistry.GetHandler` | src/agents/routes.py:53-55 | `get_handler` is None exactly for an unregistered name. |
| `Routes.AgentRegistry.ListAgents` | src/agents/routes.py:57-59 | `list_agents` lists no name twice, one name per registered agent. A name is listed exactly when `get_agent` finds an agent under it. |
| `Routes.AgentRegistry.Register` | src/agents/routes.py:29-44 | After `register(name, …)` the agent and the handler are those just given, and other names' entries are unchanged. The listing keeps a re-registered name in place and appends a new one. |
| `Settings.RStripMeaning` | src/config/settings.py:102 | `rstrip('/')` removes exactly the run of slashes at the end. The result does not end with a slash, and the input is the result plus some slashes. |
| `Settings.RStripAppended` | src/config/settings.py:102 | Slashes appended to a host come off again. |
| `Settings.BaseShape` | src/config/settings.py:101-103 | The base is the stripped host, `:`, and the decimal port. No slash is left before the colon. |
| `Settings.TrailingSlashesIgnored` | src/config/settings.py:102-103 | Hosts that differ only in trailing slashes give the same base. |
| `Settings.HostKept` | src/config/settings.py:102-103 | A host without a trailing slash appears unchanged as the base's prefix, followed by `:`. |
| `Settings.NatToStringLength` | src/config/settings.py:103 | A decimal numeral has at least one digit, and at least two from 10 on. |
| `Settings.NatToStringInjective` | src/config/settings.py:103 | Distinct numbers have distinct decimal numerals. |
| `Settings.BaseInjective` | src/config/settings.py:101-103 | Distinct ports give distinct bases. |
| `Settings.DefaultPortsDistinct` | src/config/settings.py:80-99 | The default ports 9101 to 9104 are pairwise distinct. |
| `Metrics.IncrementCounts` | src/utils/metrics.py:50-55 | `d[k] += 1` on a `defaultdict(int)` raises `k`'s count by one and moves no other count. The total grows by one, and keys stay unique. |
| `Metrics.Tallied` | src/utils/metrics.py:49-55 | `if key: d[key] += 1` counts a present, non-empty key once more and leaves every other count alone. The total grows by exactly one in that case and by nothing otherwise. |
| `Metrics.PutTotal` | src/utils/metrics.py:50-55 | Storing a count under a key replaces that key's old count (0 when absent) in the total. |
| `Metrics.MetricsCollector.constructor` | src/utils/metrics.py:15-23 | A new collector has all counters at 0, both tallies empty, and the clock reading as its start time. |
| `Metrics.MetricsCollector.RecordRequest` | src/utils/metrics.py:25-58 | `request_count` grows by exactly 1, counted as one success or one failure. Only a failure tallies its non-empty error type, and a non-empty intent is always tallied. The response time is added. Tokens are added when given, and start time is unchanged. `success_count + error_count == request_count` and the bounds of both tallies are preserved. |
| `Metrics.MetricsCollector.GetMetrics` | src/utils/metrics.py:60-90 | The report carries the counters as recorded, and successes and failures add up to the total. The success rate lies between 0 and 100. It is 100 exactly when requests were made and none failed, and 0 exactly when none succeeded. The average response time is 0 with no requests and is the mean otherwise. Requests per minute are 0 when no time has passed. |
| `Metrics.MetricsCollector.Reset` | src/utils/metrics.py:92-94 | `reset` re-runs `__init__`: all counters go back to 0, both tallies are emptied, and the start time is the new clock reading. |
| `Metrics.RatePercent` | src/utils/metrics.py:73-77 | `success / total * 100` lies between 0 and 100. It is 100 exactly when every request succeeded and 0 exactly when none did. |
| `Metrics.RatioBounds` | src/utils/metrics.py:73-77 | A ratio of successes to requests lies between 0 and 1. It is 1 exactly when they are equal and 0 exactly when there are no successes. |
| `Metrics.DivTimes` | src/utils/metrics.py:68-72 | The average times the request count gives back the total response time. |
| `Metrics.PerMinuteTimes` | src/utils/metrics.py:87 | Requests per minute times the uptime in seconds is 60 times the request count. |
| `Metrics.RecordedTwice` | src/utils/metrics.py:55 | Tallying the same key twice raises its count, and the total, by exactly two. |
| `Metrics.RequestTimer.constructor` | src/utils/metrics.py:105-109 | A new timer has its name and no start time, end time or elapsed time. |
| `Metrics.RequestTimer.Enter` | src/utils/metrics.py:111-113 | `__enter__` records the clock reading as the start time and changes nothing else. |
| `Metrics.RequestTimer.Exit` | src/utils/metrics.py:115-124 | `__exit__` records the end time. After an `__enter__`, the elapsed time is the difference and the result is `False`, so exceptions are not suppressed. Exiting a timer that was never entered raises the `TypeError` of `float - None`. |
| `Metrics.RequestTimer.GetElapsed` | src/utils/metrics.py:126-128 | `get_elapsed` is 0.0 until the block has been left, and the recorded elapsed time afterwards. |
| `Metrics.TimeBlock` | src/utils/metrics.py:102-128 | A `with RequestTimer()` block reports the difference of its two clock readings. |
| `Metrics.RecordRequestMetric` | src/utils/metrics.py:140-163 | Recording through the process-wide collector changes it exactly as `record_request` does, and keeps its invariant. |
| `Schemas.IntentValues` | src/config/schemas.py:6-11 | `CustomerIntent` has exactly the four values check_inventory_price, place_order, general_query and product_info. Each value names its own member, and no other string is accepted. |
| `Schemas.StockValues` | src/config/schemas.py:14-19 | `StockStatus` has exactly the four values in_stock, out_of_stock, low_stock and not_checked. Each value names its own member, and no other string is accepted. |
| `Schemas.StrField` | src/config/schemas.py:25-33 | A string field that is absent takes its default, or fails when it has none. A failure names the field. |
| `Schemas.OptStrField` | src/config/schemas.py:97-100 | An optional string field that is absent takes its default. A failure names the field. |
| `Schemas.BoolField` | src/config/schemas.py:34-41 | A boolean field that is absent takes its default, or fails when it has none. A failure names the field. |
| `Schemas.IntField` | src/config/schemas.py:118-121 | An integer field that is absent takes its default, or fails when it has none. A failure names the field. |
| `Schemas.AnalysisResultFrom` | src/config/schemas.py:23-41 | Validation fails without `product_details`, `customer_intent` or `original_query`. Both `requires_*` flags default to false. |
| `Schemas.AnalysisResultRoundTrip` | src/config/schemas.py:23-41 | Validating a dumped `AnalysisResult` gives it back. |
| `Schemas.CustomerInfoFrom` | src/config/schemas.py:88-100 | Validation fails without `conversation_id`. `customer_name` defaults to `Guest` and `previous_interactions` to None. |
| `Schemas.CustomerInfoRoundTrip` | src/config/schemas.py:88-100 | Validating a dumped `CustomerInfo` gives it back. |
| `Schemas.OrderDetailsFrom` | src/config/schemas.py:102-127 | Validation fails without `order_id`, `product`, `total_price` or `customer_info`. `quantity` defaults to 1, and colour and storage default to None. |
| `Schemas.OrderDetailsRoundTrip` | src/config/schemas.py:102-127 | Validating a dumped `OrderDetails`, nested customer info included, gives it back. |
| `Schemas.OrderCreationResultFrom` | src/config/schemas.py:129-140 | `order_created` and `message` are required, and `order_details` is optional with default None. |
| `Schemas.OrderCreationResultRoundTrip` | src/config/schemas.py:129-140 | Validating a dumped `OrderCreationResult` gives it back. |
| `Schemas.ChatRequestFrom` | src/config/schemas.py:174-193 | An accepted request has a query of 1 to 2000 characters, and a missing or empty query is refused. `user_id` defaults to `default_user` and `session_id` to None. |
| `Schemas.ChatRequestRoundTrip` | src/config/schemas.py:174-193 | A dumped request validates exactly when its query has 1 to 2000 characters, and then it comes back unchanged. |
| `Pipeline.Run` | src/pipeline.py:58-187 | Running the pipeline step by step gives exactly the outcome of the reference run `RunOf`. That run falls back to `{}` when the analysis is empty or cannot be decoded. It takes the error path when an agent raises, or when the decoded analysis is not a dict. |
| `Pipeline.Steps` | src/pipeline.py:101-176 | After the analysis, the inventory and order agents are called only when their flags are truthy, the consultant is always called, and one record is appended per stage that ran. A raising agent ends the run with its exception. The result equals the reference `StagesOf`. |
| `Pipeline.RunOutcomeCases` | src/pipeline.py:66-187 | A raising analysis agent ends the run with its exception. An analysis that decodes to a non-dict ends it with the `.get` attribute error, and a dict hands its entries to the stages. The error envelope has status "error", carries the exception text behind the apology prefix, and has no session id. The success envelope carries the given session id, or the fresh uuid when none is given. |
| `Pipeline.StagesOutcome` | src/pipeline.py:101-187 | Once the analysis is a dict, the run fails exactly when a requested inventory or order agent raises, or the consultant raises, with the first such exception. Otherwise it completes with status "success" under the chosen session id. |
| `Pipeline.CompletedSlots` | src/pipeline.py:86-173 | A completed run got a dict from the analysis and a reply from every agent it called. Each optional stage is present exactly when its flag is truthy, and the envelope is the consultant step's. |
| `Pipeline.UnparsedAnalysisSkipsStages` | src/pipeline.py:109-131 | An empty or undecodable analysis runs neither optional stage. The run fails only when the consultant raises. Otherwise the result holds only the analysis and consultant records, and slots 3 and 4 are empty. The result does not depend on the inventory or order agents. |
| `Pipeline.PromptPlaceholders` | src/pipeline.py:136-164 | The order prompt holds the inventory reply, or "Không có" when there is none. The consultant prompt holds the inventory and order replies, or "Không kiểm tra" and "Chưa tạo đơn" for a stage that gave nothing. |
| `AgentOutputs.AuditShape` | src/pipeline.py:101-166 | The audit list opens with the analysis and closes with the consultant. It holds an optional stage's record exactly when that stage ran, files each agent once, and has the inventory record second and the order record next to last. |
| `AgentOutputs.AuditOfNone` | src/pipeline.py:101-166 | With neither optional stage run, the audit list is the analysis record followed by the consultant record. |
| `AgentOutputs.AuditSlots` | src/pipeline.py:168-173 | Each of the four task slots is given for every combination of stages run. The consultant fills the slot right after the last stage that ran, and the fourth slot is filled only when both optional stages ran. |
| `Pipeline.StageReplyMeaning` | src/pipeline.py:117-147 | An optional stage gives nothing when its flag is off, whatever the agent would do. Otherwise it gives the agent's reply, or the exception of the agent's run. |
| `Pipeline.StagesEnvelope` | src/pipeline.py:101-187 | Past the analysis, every outcome is an error envelope with the exception text, or a success envelope under the session id. |
| `Pipeline.GivenSessionIdKept` | src/pipeline.py:69-176 | With a session id given, the uuid the run would draw plays no part in the outcome. |
| `Pipeline.ConsultedSlots` | src/pipeline.py:149-179 | The consultant's step completes exactly when the consultant answers. Task slots 1 to 4 are then the audit list read by index: slot 1 is the analysis, slot 2 is the inventory reply whenever inventory ran, and slot 4 is filled exactly when both optional stages ran. The customer sees the consultant's reply, or the apology when it is empty. |
| `PipelineA2A.RunOfStages` | src/pipeline_a2a.py:176-280 | When the analysis agent answers and its reply parses to a dict, the run is the inventory stage, then the order stage fed by the inventory result, then the consultant. The consultant's exception is raised, and otherwise its reply completes the envelope. |
| `PipelineA2A.A2APipeline.constructor` | src/pipeline_a2a.py:31-88 | Construction registers the inventory card and then the order card. Each card gets its own runner and a handler closure over that runner, and the registry lists the names "inventory_agent" then "order_agent". |
| `PipelineA2A.A2APipeline.ListRegisteredAgents` | src/pipeline_a2a.py:99-104 | The registered cards are listed in registration order, one per registry key. Each listed card is the one the registry holds under its name. |
| `PipelineA2A.A2APipeline.Run` | src/pipeline_a2a.py:106-283 | Running step by step gives exactly the reference `RunOf`, using the handlers the registry holds under "inventory_agent" and "order_agent". An exception from the analysis agent is raised. An analysis that is not JSON is replaced by the two false flags, and one that parses to something other than a dict raises. |
| `PipelineA2A.A2APipeline.Stages` | src/pipeline_a2a.py:176-280 | After the analysis, the appended records and the customer response form the envelope of what each stage gave, under the session id. An exception from the consultant is raised instead. |
| `PipelineA2A.A2APipeline.InventoryStep` | src/pipeline_a2a.py:176-199 | The inventory step yields the inventory handler's reply only when the analysis requests it, an inventory handler is registered, and the handler does not raise. |
| `PipelineA2A.A2APipeline.OrderStep` | src/pipeline_a2a.py:201-228 | The order step yields the order handler's reply only when the analysis requests it, an order handler is registered, and the handler does not raise. |
| `PipelineA2A.A2APipeline.Consult` | src/pipeline_a2a.py:230-270 | The consultant is asked once, with the prompt built from the query, the analysis, both stage results and the customer info. The result is its reply or the exception its run raises. |
| `PipelineA2A.RunEnvelope` | src/pipeline_a2a.py:106-283 | A run raises exactly when the analysis agent raises, when the analysis parses to a value that is not a dict, or when the consultant raises, each with its own exception. A raising handler is swallowed. Otherwise the run succeeds under the given or fresh session id. The audit list opens with the analysis and closes with the consultant's reply, and holds the inventory or order record exactly when that stage gave a result. The customer sees the consultant's reply, or the apology when it is empty. |
| `PipelineA2A.UnparsedAnalysisSkipsStages` | src/pipeline_a2a.py:148-280 | An analysis that is not JSON runs neither optional stage. The run succeeds exactly when the consultant answers, and then the audit list is the analysis and the consultant only. The result does not depend on the registered handlers. |
| `PipelineA2A.InventoryStageMeaning` | src/pipeline_a2a.py:176-199 | Inventory gives a result exactly when it is requested, an inventory handler is registered and the call succeeds. The handler is asked about `product_details` when that is truthy, else the raw query, with the serialised analysis as context. |
| `PipelineA2A.OrderStageMeaning` | src/pipeline_a2a.py:201-228 | Order gives a result exactly when it is requested, an order handler is registered and its call succeeds. The handler receives the inventory result or `"{}"`, and the customer context when it is non-empty, else the default customer carrying the session id. |
| `PipelineA2A.RegisteredHandlers` | src/pipeline_a2a.py:74-88 | With the handlers construction registers, each stage answers with its handler's reply (`InventoryReplyOf` or `OrderReplyOf`) when requested, and gives nothing when that handler raises. |
| `PipelineA2A.PromptPlaceholders` | src/pipeline_a2a.py:238-257 | The consultant prompt holds the query before the analysis. It holds the inventory result or "Không kiểm tra", and the order result or "Không tạo đơn", each between its section headings. |
| `PipelineA2A.UnparsedRun` | src/pipeline_a2a.py:166-270 | With an analysis that is not JSON, the run goes from the default flags straight to the consultant, with no stage result. |
| `PipelineReact.RunAgentWithToolSupport` | src/pipeline_react.py:75-141 | The tool-supported run gives exactly the reference `ToolSupport`: its reply or exception, and every prompt it sent to the agent's session. |
| `PipelineReact.ToolLoop` | src/pipeline_react.py:103-141 | For any reply parser and follow-up builder, the loop's reply and sent prompts equal the reference recursion `LoopFrom`. With no iteration at all it raises the unbound-variable error. |
| `PipelineReact.Observation` | src/pipeline_react.py:123-138 | Reading `process_agent_output`'s dict gives the same observation as the executor-based reply parser: no call, or the tool's name and result, or the propagated exception. |
| `PipelineReact.LoopTurns` | src/pipeline_react.py:105-141 | The loop sends the given prompt first, and at most the remaining number of prompts in all. Each later prompt answers the tool call in the agent's successful reply before it. The success reply is the agent's last reply, and it can still call a tool only when every iteration was used. A failure is the exception of the agent's last run, or the parse error of its last reply. |
| `PipelineReact.ToolLoopMeaning` | src/pipeline_react.py:75-141 | The tool-supported run calls the agent between 1 and `max_iterations` times and starts with the given prompt. Each follow-up carries the executor's tool result. It returns the first reply without a tool call, or the last reply once every iteration called a tool. It raises what the agent's last run or the parse of its last reply raised, and raises when there are no iterations. |
| `PipelineReact.ObserveMeaning` | src/pipeline_react.py:123-127 | The observation raises exactly when the tool-call parse raises, and reports no call exactly when no call was parsed. A parsed call yields that tool's name and `execute_tool`'s text. |
| `PipelineReact.FollowUpEmbeds` | src/pipeline_react.py:131-135 | The follow-up prompt contains the quoted tool name and the tool's output. |
| `PipelineReact.Run` | src/pipeline_react.py:143-288 | Running the ReAct pipeline step by step gives exactly the reference `RunOf`. A raising analysis agent ends the run in the error envelope. |
| `PipelineReact.Steps` | src/pipeline_react.py:185-280 | After the analysis, the inventory stage runs (or raises), then the rest follows. The result equals the reference `StagesOf`. |
| `PipelineReact.Finish` | src/pipeline_react.py:222-280 | After the inventory stage, the order stage runs, the consultant answers or raises, and the envelope holds the full audit list. The result equals the reference `AfterInventory`. |
| `PipelineReact.InventoryStep` | src/pipeline_react.py:202-220 | The inventory stage runs the inventory agent in its three-iteration tool loop only when the analysis requests it, and passes on what the loop raises. |
| `PipelineReact.OrderStep` | src/pipeline_react.py:222-248 | The order stage runs the order agent in its three-iteration tool loop only when the analysis requests it, and passes on what the loop raises. |
| `PipelineReact.RunOutcomeCases` | src/pipeline_react.py:151-288 | The error envelope has status "error", carries the exception text behind the apology prefix, and has no session id. The success envelope carries the given or fresh session id. A raising analysis agent ends the run with its exception, an analysis that decodes to a non-dict with the `.get` attribute error, and a dict hands its entries to the stages. |
| `PipelineReact.StagesEnvelope` | src/pipeline_react.py:202-288 | Past the analysis, every outcome is an error envelope with the exception text, or a success envelope under the session id. |
| `PipelineReact.StageFailureEndsRun` | src/pipeline_react.py:202-288 | Past the analysis, a run fails exactly when a requested stage or the consultant raises, with the first exception: the inventory stage's, else the order stage's, else the consultant's. Otherwise it completes under the session id. |
| `PipelineReact.StageFailure` | src/pipeline_react.py:202-248 | A stage that raises was requested, and the exception is its tool loop's. Either the agent's last run raised it, or it is the tool-call parse error of the agent's last reply. |
| `PipelineReact.UnparsedAnalysisSkipsStages` | src/pipeline_react.py:196-224 | An empty or undecodable analysis runs neither tool-supported stage. The run fails only when the consultant raises. Otherwise the slots hold only the analysis and the consultant. The result is the same whatever the inventory and order agents and the tools would do. |
| `PipelineReact.CompletedSlots` | src/pipeline_react.py:202-277 | When both stages go through, each stage ran exactly when its flag was truthy. The run then fails exactly when the consultant raises. Otherwise it completes under the session id: slot 1 is the analysis, slot 2 is the first stage that ran (or the consultant), and slot 4 is filled exactly when both stages ran. The customer sees the consultant's reply or the apology. |
| `PipelineReact.OrderPromptPlaceholder` | src/pipeline_react.py:231-239 | The order prompt holds the inventory reply, or "Không có" when there is none. |
| `PipelineReact.UnparsedRun` | src/pipeline_react.py:196-224 | With an empty or undecodable analysis, the run goes straight to the consultant with no stage result, and the order stage is not requested. |
| `PipelineReact.PipelineToolsRun` | src/pipeline_react.py:70-73 | The executor runs the two tool functions given at construction. A call to `check_inventory_detail` or `create_customer_order` whose arguments bind answers with that tool's reply to the arguments. |

## Left out

- Language-model agents and runners (`Agent`, `Runner`, `LiteLlm`, planners, prompts as agent instructions) are oracles. What an agent replies is not modelled, and neither is the agent-declaration code in src/agents/agents.py, src/agents/agents_react.py and src/a2a_services/ beyond `submit_order`.
- `InMemorySessionService` sessions and per-agent session ids are left out. Each plain agent call sees only its own prompt. A ReAct agent sees the prompts of its own session.
- The `async for` over runner events is reduced to the text of the first event. `getattr(event, "is_final_response", False)` is a bound method and always truthy, so the first event ends the loop. An event without content or parts gives `""`.
- A `None` text part is modelled as `""`. Only `_invoke_remote_agent` maps it to `""` (src/handlers/invoke_agents.py:35). The pipelines keep `None` (src/pipeline.py:97, src/pipeline_react.py:118 and :181, src/pipeline_a2a.py:160 and :269), so in the source the audit record holds `None` and a prompt that embeds the text shows `None`. The customer response falls back to the apology in both cases.
- PipelineReact.ToolLoop: a `None` reply in the tool loop makes `re.search` in `process_agent_output` raise a `TypeError`, which ends the run in the error envelope. The model sees `""`, which calls no tool. An agent oracle that answers that run with an exception gives the source's outcome.
- MCP transport (`sse_client`, `ClientSession`, `asyncio.wait_for`, `asyncio.sleep`) is replaced by the attempt-outcome oracle and the returned list of waits. Timeouts are not measured.
- The synchronous wrappers `create_order` and `get_product_info` are left out. They detect the event loop and use a thread pool, which is concurrency and adds no observable behaviour.
- `_invoke_remote_agent`'s session creation and uuid draw are inside the agent oracle.
- The `except` around the order handler's MCP call (src/handlers/invoke_agents.py:265-271) is not reachable, because `create_order_async` turns every failure into an error text. The handler still raises when the remote agent's run raises.
- CreateOrder.CreateCustomerOrder: the outer `except` (src/tools/create_order.py:120-122) is not reachable, because nothing in the modelled body raises.
- The servers, the UI and the CLI (src/service/app.py, src/ui/app.py, main.py, `MultiAgents.run_conversation`) are console, HTTP and rendering I/O.
- The A2A service bootstrapping (`to_a2a`, `uvicorn.run`, the library's `AgentCard`) and `fetch_inventory_data` are left out. The latter is a thin wrapper whose parse-or-raw behaviour is `InvokeAgents.JsonLoad`.
- MongoDB access, `check_mongodb_connection` and the database seeding are left out. `get_product_info` sees the database as an oracle from the query to the matching products.
- The file write of `create_order` is modelled as an update of the `orders` directory map. File system errors are not modelled.
- Loading settings from the environment (pydantic-settings, dotenv) is left out. The configuration is a record holding the defaults.
- The GenAI `FunctionDeclaration` and `Schema` objects are plain records.
- Metrics.MetricsCollector.GetMetrics: rates and averages are exact `real` quotients. Python's float division and `round(…, 2)` / `round(…, 3)` are not modelled. Uptime and requests per minute use a clock reading passed in.
- Schemas: pydantic's lax coercions (numeric strings to int, int to bool and the like) are not modelled, and a field must already have its declared type. `OrderDetails.total_price` is an integer, because floats are not modelled. `InventoryCheckResult` and `ChatResponse` are not modelled, since no core operation reads them.
- Json: floats are left out, so JSON numbers are integers.
- PyStr.Lower is `str.lower()` on ASCII letters only. Every string it is compared with is ASCII, and the one non-ASCII character whose lowercase is an ASCII letter (U+212A KELVIN SIGN, which becomes `k`) is handled where a search needs it.
- Regular expression `\w` is ASCII letters, digits and `_`. Python's Unicode word characters beyond ASCII are not modelled.
- Routes.AgentRegistry.ListAgents states that the names are distinct and exactly the registered ones, not their order. The insertion order of the listing is stated by `Routes.AgentRegistry.Register`.
- PipelineReact.ToolLoop: on the last iteration, a reply that calls a tool still runs that tool, and the tool's result is discarded. The model runs it too, but tool side effects (the MCP order write) are not state of this model.
- OrderAgent.SubmitOrder: `payload.setdefault("order_id", …)` also adds the id to the caller's own dict, since `payload` aliases it. The model returns the completed dict and does not model that change to the argument.
- The `user_id` argument of `MultiAgentsReAct.run` only names the session, so it is left out.
- The `fallback_used` marker read by the UI is produced by no handler, so it is not modelled.
- `src.handlers.react_executor`, which src/pipeline_react.py imports, is not part of this model. The executor modelled there is the one in src/utils/react_executor.py.
- Logging is left out everywhere.
