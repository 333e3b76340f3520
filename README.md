# news-synapse-agent, modelled in Dafny

news-synapse-agent is a chat agent. It answers a user's query through a chat-completion
service. That service may call one tool, `search_news`, which pages through the MediaCloud
story archive. Before the query goes out, the agent adds a "philosophical analysis" to it.
That analysis comes from a stereotype analyser and a critical-thinking system prompt.

This project models the logic around the two external calls, one module per source file:

| file | module | source |
|---|---|---|
| `agent_serialize.dfy` | `Serialization` | `serialize_datetime_objects` |
| `agent.dfy` | `Agent` | `format_error_response`, `call_news_tool`, `process_query` |
| `cultural_bridge.dfy` | `CulturalBridge` | `CulturalBridgeBuilder`, `DialogueFacilitator` |
| `news_bridge.dfy` | `News` | `NewsBridge` |
| `mediacloud_client.dfy` | `MediaCloud` | `SearchApi`, `DirectoryApi`, `BaseApi._query` |
| `philosophical_framework.dfy`, `framework_data.dfy` | `PhilosophicalFramework`, `FrameworkData` | `PhilosophicalFramework` and its thinker table |
| `training_module.dfy`, `training_data.dfy` | `Training`, `TrainingData` | `AgentTrainingModule` and its scenarios |
| `values.dfy` | `Values` | the Python values these files exchange |
| `text.dfy` | `Text` | the `str` operations they use |
| `wrappers.dfy` | `Wrappers` | `Option` and `Result` |

Several things outside the code become parameters:

- **The chat-completion service** is a function `llm` from the `Request` sent to the `Reply` received. A `Reply` carries the status code, the reason phrase, and `choices[0].message` or the exception that reading it raises.
- **The MediaCloud search used by `NewsBridge`** is a `NewsSource`. It maps the search string, the date window (start and end date) and the collection ids to the script of pages that the pagination loop receives. The k-th `story_list` call of one search gets the k-th entry: a page with its next token, or an exception.
- **`json.loads`** is a function `decode`.
- **`isoformat`, `fromisoformat` and the `repr` of dates** are the fields of a `Calendar`.
- **`re.search`** is a `Matcher`.
- **`datetime.utcnow().date()`** is the parameter `today`.
- **The module-level `news_bridge`** is a `NewsBridge?`. `null` stands for a missing `MEDIACLOUD_API_KEY`.

The code is imperative where the source is:

- `NewsBridge` is a class with a mutable `collectionIds` field. `call_news_tool` overrides it and restores it.
- Loops that build strings and lists become methods with loop invariants. Each method is proved equal to a specification function.
- `_dates_str2objects` rewrites an array of story dicts in place.

One quirk is kept: when the final reply's content is JSON null, `process_query` returns `None`. The model's answer is `None` in that case too.

## Model

| member | source | states |
|---|---|---|
| Serialization.Serialize | src/agent.py:22-35 | A date or datetime becomes its isoformat string. A dict keeps exactly its keys, in order. An object becomes the dict of its attributes. A list keeps its length and converts each item in place. Any other value is returned unchanged. |
| Serialization.SerializeEntries | src/agent.py:29 | The dict comprehension keeps every key, in order, and converts each value. |
| Serialization.SerializeObject | src/agent.py:32-33 | An object is converted exactly as its `__dict__` is. |
| Serialization.SerializeClean | src/agent.py:22-35 | No date, datetime or object is left anywhere in a converted value, except inside a tuple. |
| Serialization.SerializeFixesClean | src/agent.py:22-35 | A value with nothing left to convert is its own conversion. |
| Serialization.SerializeIdempotent | src/agent.py:22-35 | Converting twice is the same as converting once. |
| Agent.ReportedError | src/agent.py:62-72 | Reads the error text back out of a `format_error_response` message. Whatever it returns formats back to exactly that message. |
| Agent.ReportedErrorOfFormat | src/agent.py:62-72 | Round trip: the text read back from `format_error_response(e)` is `e`. |
| Agent.MaxStoriesArg | src/agent.py:85 | `min(max_stories, 5)` succeeds exactly for an int or a bool. An int gives its minimum with 5, so the cap is never above 5. |
| Agent.DaysBackArg | src/agent.py:84 | `days_back` is usable in `timedelta(days=...)` exactly when it is an int or a bool. An int is used as given. |
| Agent.QueryArg | src/agent.py:83 | The query is `None` exactly when the argument is missing or null. |
| Agent.SearchNews | src/agent.py:82-100 | A successful `search_news` result is a list of at most 5 stories with no date left in them. The stories are those of the window that ends today and starts `days_back` days earlier. |
| Agent.Found | src/agent.py:98-100 | `result[:5]`, then converted: it holds min(n, 5) items, and item i is the conversion of story i. |
| Agent.NewsToolResult | src/agent.py:74-109 | With no bridge: "Failed to fetch news data: " + the not-configured message. With a name other than `search_news`: that prefix + "Unsupported function call: " + the name. Every error starts with that prefix. Success needs a bridge, `search_news` and dict arguments, and yields at most 5 clean stories. |
| Agent.RunSearch | src/agent.py:92-96 | The search uses the bridge's current ids and the nuanced query. Every request covers the window from `days_back` days before today up to today. An unusable `days_back` sends no request. |
| Agent.SearchWithIds | src/agent.py:88-96 | Truthy `collection_ids` are used for the search, otherwise the bridge's own. Afterwards the field holds its old value again, on success and on failure, and the API key is unchanged. |
| Agent.SearchWithArguments | src/agent.py:83-100 | Equals `SearchNews` on the bridge's ids. Every request carries the ids the arguments select and the window that `days_back` (7 when absent) sets, ending today. The bridge is left as it was. |
| Agent.CallNewsTool | src/agent.py:74-109 | Equals `NewsToolResult` for the bridge as it was. The bridge is left as it was. Requests are sent only for a configured `search_news` call with dict arguments, and each carries the selected ids and the `days_back` window ending today. |
| Agent.MarkerKeywordsExtendFallback | src/agent.py:215 | Every query that the HTTP-500 branch treats as a news request is also one for the raw-tool-syntax branch. |
| Agent.KeywordListsDiffer | src/agent.py:215 | "China" counts as a news request for the raw-tool-syntax branch but not for the HTTP-500 branch. |
| Agent.CleanQuery | src/agent.py:153-155 | A non-empty query gives a non-empty search query. When nothing but whitespace is left after the removals, the query itself is searched. Whenever the result differs from the query, it is lowercase, non-empty and stripped. |
| Agent.CleanQueryCleaned | src/agent.py:153-155 | When something other than whitespace is left after the removals, the search query is exactly that stripped remainder. |
| Agent.CleanQueryDropsLeadingPhrase | src/agent.py:218-220 | A query made of the first phrase, a space and a clean subject is searched as that subject alone. A clean subject is lowercase, unpadded and free of every phrase. |
| Agent.CleanQueryCanKeepPhrase | src/agent.py:153 | Each phrase is removed in a single left-to-right pass, so "newnewss" is searched as "news". The removed phrase can therefore still occur in the search query. |
| Agent.CleanQueryKeepsClean | src/agent.py:218-220 | A query that is already lowercase, stripped and free of the removed phrases is searched unchanged. |
| Agent.AppendStory | src/agent.py:168-171 | The four `+=` add exactly the story's block: the numbered title, source, date and link lines. |
| Agent.FormatStories | src/agent.py:159-173 | The loop builds the header, then one block per dict story, numbered by the story's 1-based position. |
| Agent.ListingOpens | src/agent.py:160 | The listing starts with "I found these relevant news stories for you:". |
| Agent.ListingShowsStory | src/agent.py:161-171 | Story i (0-based), when it is a dict, appears in the listing as the block numbered i + 1. Non-dicts before it still use up a number. |
| Agent.ListingWithoutDicts | src/agent.py:162 | When no story is a dict, the listing is the header alone. |
| Agent.MissingFieldsShowPlaceholders | src/agent.py:163-171 | A story with none of the four fields shows "No Title", "Unknown source", "Unknown date" and "No URL". |
| Agent.ContentAnswer | src/agent.py:192 | The fallback returns the message content. That is `None` exactly for a null content and the text for text content. |
| Agent.CheckedAnswer | src/agent.py:260-262 | `raise_for_status()`: a 4xx or 5xx status gives "An error occurred: " + its HTTPError text. The result is `None` exactly when the status is not 4xx or 5xx and the content is JSON null. |
| Agent.ManualAnswer | src/agent.py:150-175 | A direct search answers only when the query holds a news keyword and a bridge is configured. Otherwise the code falls through. |
| Agent.Failure | src/agent.py:281-283 | The failure payload has exactly the keys error, status and tool. Their values are the formatted error, "failed" and the tool name. |
| Agent.ToolPayload | src/agent.py:269-283 | The payload of a tool message can always be JSON-encoded. It is the result when the result can be encoded. It is the failure payload when the tool raised or the result cannot be encoded. |
| Agent.ToolMessages | src/agent.py:264-287 | The loop finishes exactly when every call's arguments decode. It then yields one tool message per call. |
| Agent.ToolMessagesAt | src/agent.py:264-287 | Message i answers call i, with call i's own id and payload. |
| Agent.ToolMessagesFirstError | src/agent.py:266 | An aborted loop carries the decode error of the first call whose arguments do not decode. |
| Agent.ManualSearch | src/agent.py:150-177 | The direct-search step equals `ManualAnswer`. The bridge is left as it was. |
| Agent.RunToolCall | src/agent.py:269-287 | One loop iteration produces that call's tool message. The bridge is left as it was. |
| Agent.RunToolCalls | src/agent.py:264-287 | The loop appends exactly `ToolMessages` to the history, or stops with the first decode error. The bridge is left as it was. |
| Agent.FailedOpening | src/agent.py:145-196 | On a non-200 status, the first request is the opening, sent with tools. |
| Agent.AnsweredOpening | src/agent.py:212-245 | On a 200 reply, the first request is the opening, sent with tools. |
| Agent.ToolCallsAnswer | src/agent.py:247-301 | After the marker check, the first request is the opening, sent with tools. |
| Agent.Respond | src/agent.py:118-305 | One or two requests are sent, the first being the opening with tools. A second request never offers tools. The answer is `None` only when the last reply's content is JSON null. |
| Agent.RespondTechnicalDifficulties | src/agent.py:145-196 | A status other than 200 and 500 returns the technical-difficulties message with that code, after one request. |
| Agent.RespondServerError | src/agent.py:147-194 | On 500: a direct-search answer returns after one request. Otherwise one tool-less retry is sent, and a non-200 retry ends in the technical-difficulties message for 500. |
| Agent.RespondRawToolSyntax | src/agent.py:212-245 | Content with raw tool syntax sends no further request. Without a news keyword, or when the direct search gives nothing, the apology is returned. |
| Agent.RespondNullContent | src/agent.py:212-213 | A null content makes the marker test raise. The query returns "An error occurred: argument of type 'NoneType' is not iterable". |
| Agent.RespondPastMarkers | src/agent.py:212-247 | Content without markers goes on to the tool-call handling. |
| Agent.RespondToolHistory | src/agent.py:264-298 | With tool calls whose arguments all decode, the second request is [system, user, model message] + one tool message per call, in call order. |
| Agent.Enhance | src/agent.py:119-126 | The opening is the system prompt and the query followed by its philosophical analysis. |
| Agent.HandleFailure | src/agent.py:145-196 | The non-200 branch equals `FailedOpening`. The bridge is left as it was. |
| Agent.HandleToolCalls | src/agent.py:247-301 | The tool-call branch equals `ToolCallsAnswer`. The bridge is left as it was. |
| Agent.Converse | src/agent.py:139-305 | Everything after building the opening equals `Respond`. The bridge is left as it was. |
| Agent.ProcessQuery | src/agent.py:118-305 | The first request is the enhanced opening with tools. The answer and the requests equal `Respond` on it. The bridge's ids and key are unchanged. |
| CulturalBridge.Matching | src/cultural_bridge.py:82-85 | The matches are exactly the category's patterns that match the text. |
| CulturalBridge.MatchingInOrder | src/cultural_bridge.py:82-85 | The matches come from exactly the positions whose pattern matches, in list order. A pattern listed twice is reported twice. |
| CulturalBridge.Analysis | src/cultural_bridge.py:77-89 | There is at most one entry per category of the table. |
| CulturalBridge.AnalysisInOrder | src/cultural_bridge.py:81-88 | The entries come from exactly the categories with a matching pattern, in table order, each with its matches. So the keys follow the table order. |
| CulturalBridge.AnalysisSound | src/cultural_bridge.py:86-87 | Every entry is a table category paired with its matching patterns, and that list is never empty. |
| CulturalBridge.AnalysisComplete | src/cultural_bridge.py:81-88 | Every category with a matching pattern is in the result, paired with its matches. |
| CulturalBridge.AnalysisKeyIff | src/cultural_bridge.py:81-88 | A category is a key of the result if and only if one of its patterns matches. |
| CulturalBridge.AnalysisValue | src/cultural_bridge.py:82-87 | With distinct categories, the list stored under a key is exactly that category's matches. |
| CulturalBridge.AnalyzeForStereotypes | src/cultural_bridge.py:77-89 | The nested loops build exactly `Analysis`. |
| CulturalBridge.SuggestAlternativeFramings | src/cultural_bridge.py:91-127 | The four conditional `extend`s build exactly `Framings`. |
| CulturalBridge.SuggestionsSound | src/cultural_bridge.py:93-127 | Every suggestion belongs to the block of a category that was identified. |
| CulturalBridge.SuggestionsKeysOnly | src/cultural_bridge.py:93-127 | Only which recognised keys are present matters. Their order, their values and any other key make no difference. |
| CulturalBridge.FramingsShape | src/cultural_bridge.py:95-127 | With essentialism identified, its four framings come first. There is no suggestion exactly when none of the four categories was identified. |
| CulturalBridge.SuggestionsEmptyIff | src/cultural_bridge.py:93-127 | For non-empty blocks, there is no suggestion exactly when no block's key was identified. |
| CulturalBridge.FramingsCount | src/cultural_bridge.py:93-127 | There are exactly four suggestions per recognised category present. |
| CulturalBridge.CategoryLines | src/cultural_bridge.py:166-167 | There is one line per identified category, in order, each naming the title-cased category. |
| CulturalBridge.GeneratePhilosophicalInquiry | src/cultural_bridge.py:157-186 | The `+=` steps build exactly `Inquiry` of the analysis and its framings. |
| CulturalBridge.AppendBullets | src/cultural_bridge.py:183-184 | The loop adds one "• " line per item, in order. |
| CulturalBridge.InquiryLayout | src/cultural_bridge.py:162-186 | The inquiry always ends with the questions heading and the five question lines. With nothing identified, it is the header followed directly by that block. Otherwise the header is followed by the assumptions section, with one line per category, and then the framings heading. |
| CulturalBridge.InquiryMentions | src/cultural_bridge.py:162-186 | The inquiry starts with its header and names every identified category. When something was identified, it shows the first three suggestions. It always lists the five fixed questions. |
| CulturalBridge.FramingBlockLines | src/cultural_bridge.py:169-172 | The framings block has min(n, 3) lines, line i being "• " + suggestion i. |
| CulturalBridge.StrategySections | src/cultural_bridge.py:150-153 | There is one section per strategy type, in table order. |
| CulturalBridge.BuildCulturalBridgeResponse | src/cultural_bridge.py:129-155 | The response is the bridge text for some collection of all thinkers' questioning methods and insights, and the table's strategies. |
| CulturalBridge.BridgeTextMentions | src/cultural_bridge.py:135-153 | The text names the topic and every perspective. It shows the first five methods, the first five insights, every strategy type, and the first two strategies of each. |
| CulturalBridge.BridgeListsBounded | src/cultural_bridge.py:142-153 | The method and insight lists have at most 5 lines and a strategy list at most 2. Line i is "• " + item i. |
| CulturalBridge.FacilitatePerspectiveExchange | src/cultural_bridge.py:194-223 | The dialogue is its opening followed by the fixed sections, and nothing else. |
| CulturalBridge.OpeningPlaces | src/cultural_bridge.py:197-203 | The topic, viewpoint A and viewpoint B appear verbatim, in that order, at fixed offsets. |
| PhilosophicalFramework.Lookup | src/philosophical_framework.py:595 | `dict.get` finds a value exactly when the key is present, and returns a value stored under it. |
| PhilosophicalFramework.LookupOwnKey | src/philosophical_framework.py:595 | With distinct keys, looking up entry i's key gives entry i's value. |
| PhilosophicalFramework.GetThinkerPerspective | src/philosophical_framework.py:593-595 | The result is found exactly when the lowercased name is a key, and it is the perspective stored under it. |
| PhilosophicalFramework.ThinkerReachable | src/philosophical_framework.py:593-595 | With lowercase distinct keys, any capitalisation of a thinker's key reaches that thinker. |
| PhilosophicalFramework.ShippedKeysWellFormed | src/philosophical_framework.py:35-494 | The shipped table has 18 keys, all lowercase and distinct, so every thinker is reachable. |
| PhilosophicalFramework.ShippedKeysLowercase | src/philosophical_framework.py:35-494 | Each of the 18 shipped keys is lowercase. |
| PhilosophicalFramework.ShippedKeysDistinct | src/philosophical_framework.py:35-494 | No shipped key occurs twice. |
| PhilosophicalFramework.InFlatten | src/philosophical_framework.py:600-602 | The extended list holds exactly the items of some thinker's field. |
| PhilosophicalFramework.CollectDistinct | src/philosophical_framework.py:597-603 | The collector returns no duplicates. An item is in it exactly when some thinker lists it. |
| PhilosophicalFramework.GetQuestioningMethodsForTopic | src/philosophical_framework.py:597-603 | The result has no duplicates and is exactly the union of all thinkers' questioning methods, whatever the topic. |
| PhilosophicalFramework.GetCulturalInsightsForTopic | src/philosophical_framework.py:605-610 | The same, for cultural insights. |
| PhilosophicalFramework.AnalyzeForStereotypes | src/philosophical_framework.py:612-618 | The same, for stereotype challenges, whatever the text. |
| PhilosophicalFramework.PromptLines | src/philosophical_framework.py:574-580 | The prompt's lines are, in order: the intro, one "• " line per strategy, an empty line, the heading, one "• " line per principle, an empty line, and the outro. |
| PhilosophicalFramework.CriticalThinkingPromptLines | src/philosophical_framework.py:536-591 | The framework's prompt, line by line, is the fixed introduction, its own strategies as "• " lines, an empty line, the principles heading, its own principles as "• " lines, an empty line and the fixed closing instructions. |
| Training.FirstRelevant | src/training_module.py:185-188 | The search returns the first scenario with a title word in the topic, and `None` only when there is none. |
| Training.GetTrainingScenario | src/training_module.py:181-190 | Returns the first scenario with a lowercased title word in the lowercased topic. Failing that, returns the first scenario. Returns `None` only for an empty list. |
| Training.EconomicTitleShape | src/training_module.py:29 | The first scenario's title is "Economic", "Development", "and", "Cultural Values" joined by spaces. |
| Training.AndIsKeyword | src/training_module.py:29 | "and" is one of that title's lowercased words. |
| Training.AndTopicsGetFirstScenario | src/training_module.py:183-188 | Any topic containing "and" gets the first scenario when its title is the shipped one. |
| Training.GetQuestioningExercise | src/training_module.py:192-197 | Returns the first exercise whose name equals the type, ignoring case. Failing that, returns the first exercise. Returns nothing only for an empty list. |
| Training.FirstNamed | src/training_module.py:194-196 | The search returns the first exercise with that lowercased name, and `None` only when there is none. |
| Training.ExerciseCaseInsensitive | src/training_module.py:195 | Two types that differ only in case get the same exercise. |
| Training.ExerciseByName | src/training_module.py:194-196 | With distinct names, any capitalisation of an exercise's name returns that exercise. |
| MediaCloud.IdStrings | src/mediacloud_client.py:153 | `[str(x) for x in ids]` keeps the length, and item i is `str(ids[i])`. |
| MediaCloud.JoinIdsRoundTrip | src/mediacloud_client.py:152-155 | Splitting the comma-joined decimal ids on "," and parsing each part gives back the ids. |
| MediaCloud.BaseParams | src/mediacloud_client.py:146-151 | The defaults hold exactly start, end, q and platform, in that order. |
| MediaCloud.DefaultParams | src/mediacloud_client.py:146-156 | Every key is one of start, end, q, platform, ss and cs. |
| MediaCloud.BaseParamsValues | src/mediacloud_client.py:146-151 | start and end are the isoformat dates, q is the query, and platform is the given one when truthy, otherwise "onlinenews-mediacloud". |
| MediaCloud.DefaultParamsValues | src/mediacloud_client.py:146-151 | The built dict stores those four values, whatever ids are given. |
| MediaCloud.DefaultParamsIds | src/mediacloud_client.py:152-155 | `ss` is present exactly when the source ids are non-empty, and then holds them comma-joined; likewise `cs` for the collection ids. |
| MediaCloud.SetIfPresent | src/mediacloud_client.py:152-155 | A conditional store appends its key exactly when the condition holds, and adds no other key. |
| MediaCloud.PrepDefaultParams | src/mediacloud_client.py:142-156 | The method builds exactly `DefaultParams`: the four defaults, then ss and cs only for non-empty id lists. |
| MediaCloud.StoryListKeysFresh | src/mediacloud_client.py:183-191 | None of the optional story-list keys collides with a default key or an earlier one, so each store appends. |
| MediaCloud.StoryListParams | src/mediacloud_client.py:176-191 | The defaults, then expanded=1, pagination_token, sort_order and page_size, each only when truthy and in that order. |
| MediaCloud.SampleFieldList | src/mediacloud_client.py:211-213 | The fields are the eight fixed names, plus "text" only when `expanded` is truthy. |
| MediaCloud.StorySampleParams | src/mediacloud_client.py:202-214 | The defaults, then limit when truthy, then the field list. |
| MediaCloud.WordsParams | src/mediacloud_client.py:226-233 | The defaults, then limit when truthy. `sources` and `languages` build the same dict. |
| MediaCloud.CollectionListParams | src/mediacloud_client.py:106-117 | limit and offset always, then name, platform and source_id, each only when truthy. |
| MediaCloud.SourceListParams | src/mediacloud_client.py:123-134 | limit and offset always, then collection_id, name and platform, each only when truthy. |
| MediaCloud.Query | src/mediacloud_client.py:60-91 | The decoded body is returned exactly for a GET or POST answered with 200 whose body is JSON. Every other case raises: 403, 401, another status, a timeout, an unsupported method, or a failed request. A 200 body that `r.json()` cannot decode fails as "API request failed: " with the decoder's message. |
| MediaCloud.ReportedStatusOf | src/mediacloud_client.py:82 | The status code can be read back from an "API Server Error" message. |
| MediaCloud.ServerErrorReportsStatus | src/mediacloud_client.py:80-82 | Any status other than 200, 401 and 403 raises a server error naming exactly that status. |
| MediaCloud.PublishDate | src/mediacloud_client.py:199 | A missing key raises `KeyError`. A falsy value gives `None`, and only a falsy value does. A date is the parse of the string's first ten characters. The conversion fails exactly when the key is missing, or the value is truthy and either not a string or not a valid date. |
| MediaCloud.IndexedDate | src/mediacloud_client.py:200 | A missing key raises `KeyError`. A falsy value gives `None`, and only a falsy value does. A datetime is the parse of the whole string. The conversion fails exactly when the key is missing, or the value is truthy and either not a string or not a valid datetime. |
| MediaCloud.ConvertStory | src/mediacloud_client.py:198-200 | The loop body rewrites story i in place and touches no other story. |
| MediaCloud.DatesStr2Objects | src/mediacloud_client.py:196-200 | Every story up to the first one that raises is rewritten. Later stories are untouched. The exception is that story's. |
| MediaCloud.ConvertStoresDates | src/mediacloud_client.py:199-200 | A story fails to convert exactly when one of its two dates fails on its own. A story that converts stores the two converted dates. |
| MediaCloud.ConvertShape | src/mediacloud_client.py:199-200 | A converted story keeps its keys and every other field. It holds a date or `None` under publish_date and a datetime or `None` under indexed_date. |
| News.Subject | src/news_bridge.py:23 | Reads the subject back out of `f'({q}) AND ({terms})'`. Whatever it returns rebuilds the same search string. |
| News.SubjectOfScoped | src/news_bridge.py:23 | Round trip: the subject read back from a scoped search is the query. |
| News.NuancedQueryCases | src/news_bridge.py:19-23 | With no query, the default bridge query is used. Otherwise the query is scoped by the bridge terms, which never gives the default query. |
| News.DefaultQueryOpening | src/news_bridge.py:20 | The default query is not empty and starts with "dialogue". |
| News.StartDate | src/news_bridge.py:26 | The window starts `days_back` days before the end date. |
| News.FetchSound | src/news_bridge.py:28-39 | Each call after the first follows a page that returned a token while stories were short. A successful loop holds exactly the stories of the pages it fetched, and stopped on a missing token or enough stories. A failed loop ends with its last call's exception. |
| News.NothingRequested | src/news_bridge.py:30-42 | With `max_stories <= 0`, no page is requested and the result is empty. |
| News.CollectedIsBoundedPrefix | src/news_bridge.py:31-42 | The result has at most `max_stories` stories and is a prefix of the fetched pages' stories, in fetch order. |
| News.NewsBridge.constructor | src/news_bridge.py:6-9 | Keeps the API key. `collection_ids` defaults to `[]` when falsy. |
| News.NewsBridge.Paginate | src/news_bridge.py:27-42 | The loop returns the truncated stories. Call j carries the token returned by call j - 1 and the bridge's ids. |
| News.NewsBridge.SearchNuancedNews | src/news_bridge.py:11-42 | The nuanced search string and the window ending today feed the pagination loop. |
| News.NewsBridge.SearchCulturalBridgeNews | src/news_bridge.py:44-73 | The same, with the region scoped by the cultural bridge terms. |

## Left out

- **HTTP, `requests`, sessions, headers and timeouts.** The chat-completion calls and the MediaCloud transport are abstract (`llm`, `Transport`). The payload constants are not modelled: the model name, temperature, `max_tokens`, the tool schema in `src/tools.py` and `tool_choice`. A request records only its messages and whether it offers tools.
- **The chat transport.** `handle_chat_message`, acknowledgements, agent start-up, `.env` loading, logging and `print` are not modelled. They carry no logic that decides an answer.
- **The text of the system prompt.** `Agent.ProcessQuery` receives the system prompt as a parameter. `PhilosophicalFramework.GetCriticalThinkingPrompt` is its definition. `CriticalThinkingPromptLines` states its line structure for any strategy and principle lists of one-line items. That the shipped items are one-line is not proved.
- **Requests sent from tool calls.** Inside `Agent.ProcessQuery`, the `story_list` calls made for the model's tool calls are not reported. `Agent.CallNewsTool` reports them.
- **Story-script termination.** A search whose script of pages ends before the loop does fails with the model's own `ScriptExhausted` error. The real archive has no such end.
- **Date arithmetic.** Dates are ordinals: `StartDate` subtracts days without range errors (`OverflowError` before year 1 is not modelled). `isoformat` and `fromisoformat` are abstract functions.
- Values.Repr: an object is shown as `<Name object>`, because the model has no module name or memory address. Python shows `<module.Name object at 0x…>`. Non-printable characters beyond ASCII are shown as they are, where Python escapes them. This reaches `f"{query}"` for a non-string argument and the parameters in the text of an API server error.
- **Exception messages the model approximates.** These are the `TypeError` texts for comparing with 5 or building a `timedelta` from a non-number, the `KeyError` text `'content'`, and the message for a non-string date field. `NotSerializable` is fixed text, where Python names the offending type.
- **JSON.** `json.dumps` is the predicate `JsonEncodable`, and a tool message keeps the value before encoding. `json.loads` is the abstract `decode`.
- **`dict` aliasing.** `DatesStr2Objects` rewrites an array of story values, not shared dict objects that other references could observe.
- **Floats.** Floats are not values of the model, so a float `max_stories` or `days_back` is not covered.
- **Case mapping.** `lower()` and `title()` are modelled on ASCII letters only. `strip()` and `split()` use Python's full whitespace set.
- **`list(set(...))` order.** Python gives no order here. `CollectDistinct` and the three collectors state the set of items and the absence of duplicates, not an order.
- **Absent `tool_calls`.** A null or missing `tool_calls` is the empty list.
- **Error texts of a failed reply.** The exception text for a reply whose body cannot be read is abstract (`Reply.body`).
- Training.GetQuestioningExercise: returns `None` where Python returns `{}`.
- **`generate_training_prompt`.** It is static prompt text with no logic.
- **Shipped training data.** The facts about the shipped scenarios are proved for any module whose first scenario has the shipped title.
- **Client operations outside the core.** `story_count`, `story_count_over_time`, `story`, `collection`, `source`, `user_profile`, `version` and the client factory functions are not modelled.
- **The external `mediacloud.api` library.** `NewsBridge` uses it, separately from `mediacloud_client.py`. It is the page source `NewsSource`.
- **The regex engine.** `re.search(pattern, text, re.IGNORECASE)` is the abstract `Matcher`.
- CulturalBridge.Analysis: its own contract states only the bound on its size. Its entries and their table order are stated by `AnalysisInOrder`, `AnalysisSound`, `AnalysisComplete`, `AnalysisKeyIff` and `AnalysisValue`.
- MediaCloud.Query: a 200 body that is not JSON is treated as `requests` 2.27 and later treat it, where the decoder's error is a `RequestException`. With older versions that error escapes `_query` uncaught, which the model does not represent.
- MediaCloud.DefaultParams: its own contract states only which keys may occur. Their order is stated by `BaseParams` (the first four) and `PrepDefaultParams` (then ss, then cs); their values by `BaseParamsValues`, `DefaultParamsValues` and `DefaultParamsIds`.
- Agent.FailedOpening: its contract states only the first request. What the path returns is stated by `RespondTechnicalDifficulties` and `RespondServerError`.
- Agent.AnsweredOpening: its contract states only the first request. What the path returns is stated by `RespondRawToolSyntax`, `RespondNullContent` and `RespondPastMarkers`.
- Agent.ToolCallsAnswer: its contract states only the first request. What the path returns is stated by `RespondToolHistory` and `CheckedAnswer`.
