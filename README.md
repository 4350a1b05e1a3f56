# SLP Post Office: stamp calculation, transaction layout and rate table

A Dafny model of the post office core of Electron Cash SLP
(`electroncash/slp_post_office.py`). A post office pays the network fee of a
token transfer in exchange for postage: extra tokens sent to it. The model
covers three parts.

- **The stamp calculators**: both `calculate_postage_and_build_slp_msg`. The
  fresh variant (`SlpPostOfficePr`) is used for a first send. The incremental
  variant (`SlpPostOffice`) keeps the amounts of an earlier token message.
  Each looks up the token's stamp rate and the post office's weight. It then
  raises the stamp count from 0 until the estimated fee and dust cost of the
  transaction is covered by `stamp_count * weight`. A final case table turns
  the output shape into the token amounts of the message. (`postage.dfy`)
- **The output layout**: both `build_slp_txn`, which order the outputs of
  the unsigned transaction from the parsed token message. (`assembly.dfy`)
- **The rate table**: `_SlpPostOfficeClient`. It holds the postage document
  fetched from each host, picks a document per token (`optimize_rates`),
  answers the two getters, and keeps the ban list. (`client.dfy`)

Shared values (the documents, the exceptions, Python's `sum` and slices) are
in `common.dfy`.

Modelling choices:

- The coin chooser is a parameter: a total function from the required token
  amount to the token values of the chosen coins.
- Python exceptions are `Err` values. A missing `weight` or `stamps` key is
  `MissingKey`. "Post Office does not offer postage" is `NoOffer`. The final
  "Unhandled exception" is `UnhandledShape`.
- A calculator method returns the plan's coins, message amounts,
  `needs_postage` and postage amount. It also returns the stamp count as a
  ghost value so its contract can say which pass ended the loop.
- The calculators require that some stamp count ends the loop, which is
  exactly the condition under which the Python loop stops.
  `FreshTerminates` and `IncTerminates` prove that any positive weight
  satisfies it.
- `postage_data` is a Python dictionary, which keeps insertion order. It is
  modelled as a list of (host, document) pairs with distinct hosts. A
  reassigned host keeps its place and a new host goes last.

Where the code and the intent its own text shows part ways, the model
follows the code:

- `optimize_rates` sorts each token's stamps by rate (line 292), and the
  getter calls the stamp it reads `least_priced_stamp` (line 301): the pick
  is meant to be the cheapest stamp. The client also keeps a `ban_list`
  (lines 304-310). But the result of `sorted` is discarded and `ban_list` is
  never read, so the code picks the first host in dictionary order that
  offers the token. The model does the same. The cheapest host that is not
  banned is defined separately (see Findings).
- The incremental calculator adds 2 to the dust count when both postage and
  change are positive (line 166), but sets it to 1 when exactly one of them
  is (line 169). The model does the same, and `IncTableAsWritten` states what
  the final table then yields.

## Model

| member | source | states |
|---|---|---|
| Postage.FindRate | electroncash/slp_post_office.py:30-33 | The stamps loop's result is the rate of the last stamp for the token, or none when no stamp is for it. |
| Postage.LastRateIsLastMatch | electroncash/slp_post_office.py:128-133 | No rate is found exactly when no stamp names the token; otherwise the rate found is that of the last matching stamp, since the loop never breaks. |
| Postage.TotalTokenValue | electroncash/slp_post_office.py:57-59 | The coin loop's total is the sum of the chosen coins' token values. |
| Postage.FreshClassify | electroncash/slp_post_office.py:54-68 | Fresh shapes: there are 1, 2 or 3 dust outputs. There are 3 exactly when both postage and change are positive and 1 exactly when neither is. The message size grows by 9 bytes per extra amount, starting at 64. |
| Postage.FreshTrial | electroncash/slp_post_office.py:51-78 | A fresh pass chooses coins for send plus `rate * count` and sets postage to `rate * count` and change to total − send − postage. The message size is 64 plus 9 per extra dust output. The deficit is `10 + msgSize + 580·dust − 397·inputs − count·weight`, which is at most `1832 − count·weight`. |
| Postage.IncTrial | electroncash/slp_post_office.py:141-179 | An incremental pass has the same coins, postage and change. Its dust count is m+2 with both postage and change, 1 with exactly one of them, and m with neither. Its message size is `55 + 9·m` plus 18, 9 or 0 in those cases. The deficit is `10 + msgSize + 580·dust − 397·inputs − count·weight`, which is at most `1243 + 589·m − count·weight`. |
| Postage.FreshTerminates | electroncash/slp_post_office.py:48-78 | With a positive weight, the fresh loop ends by 1832 stamps whatever coins are chosen. |
| Postage.IncTerminates | electroncash/slp_post_office.py:150-179 | With a positive weight, the incremental loop ends by 1243 + 589·m stamps whatever coins are chosen. |
| Postage.FreshTableTotal | electroncash/slp_post_office.py:80-93 | On every fresh pass the table never raises. It yields the send amount, then the postage and the change when they are positive. It asks for postage exactly when the postage is positive. |
| Postage.PreAmounts | electroncash/slp_post_office.py:135-137 | The kept amounts are a prefix of the earlier amounts after entry 0. The last one is dropped exactly when the amounts sum to more than the send amount and there is at least one. |
| Postage.IncTableAsWritten | electroncash/slp_post_office.py:165-195 | With both postage and change, the incremental table appends both and asks for postage; with neither, it keeps the earlier amounts. With exactly one of them: 0 kept amounts appends that amount; 1 kept amount drops it and asks for no postage; 2 or more raises. |
| Postage.FreshPass | electroncash/slp_post_office.py:51-78 | One iteration of the fresh loop computes exactly the pass `FreshTrial` defines. |
| Postage.IncPass | electroncash/slp_post_office.py:153-179 | One iteration of the incremental loop computes exactly the pass `IncTrial` defines. |
| Postage.FreshPostage | electroncash/slp_post_office.py:26-97 | A missing weight, missing stamps or missing token gives that error. Otherwise the pass returned is the first stamp count without a deficit, and every smaller count had one. The plan carries the send amount, the positive postage and change, and `needs_postage` exactly when postage is paid. |
| Postage.IncrementalPostage | electroncash/slp_post_office.py:123-199 | The same lookup errors as the fresh variant. Otherwise the pass returned is the first stamp count without a deficit, and every smaller count had one. The result is the incremental table applied to that pass and the kept amounts. |
| Postage.IncRaisesOnKeptPair | electroncash/slp_post_office.py:165-195 | For an earlier message [0, 5, 7], send 12, rate 1 and weight 1000, the loop ends at one stamp with postage 1 and no change, and the table raises. |
| Postage.IncDropsPostageOnKeptSingle | electroncash/slp_post_office.py:165-195 | For an earlier message [0, 12], send 12, rate 1 and weight 1000, the loop ends at one stamp with postage 1, yet the message keeps only [12] and asks for no postage. |
| Postage.IncTableIntended | electroncash/slp_post_office.py:165-195 | Adding one dust output for exactly one of postage and change makes the incremental table total. It then keeps the earlier amounts, appends the positive postage and change, and asks for postage exactly when postage is positive. |
| Assembly.FreshOutputs | electroncash/slp_post_office.py:15-23 | The fresh output list starts with the message and the receiver. The post office output follows for 2 amounts, and the post office and change outputs follow for 3. |
| Assembly.FreshOutputsMatchPlan | electroncash/slp_post_office.py:15-23 | For a fresh plan's message there is one output per message amount, and the post office output follows the receiver whenever there is a second amount. |
| Assembly.KeptOutputs | electroncash/slp_post_office.py:105-107 | The carried-over outputs are a prefix of the earlier outputs after the first. The last is dropped exactly when the earlier amounts (entry 0 included) sum to more than the send amount. |
| Assembly.IncOutputs | electroncash/slp_post_office.py:103-115 | The incremental output list is the message, then the carried-over outputs, then the post office output (and the change output) by how many amounts the new message adds. |
| Assembly.IncOutputsMatchPlan | electroncash/slp_post_office.py:103-115 | The earlier outputs must line up with the earlier amounts, with entry 0 zero. Then an incremental plan's message gives one output per amount, and the carried-over outputs are exactly those whose amounts were kept, so the earlier change output is not carried over. The post office output follows when postage is paid, and the change output after it. |
| Client.Put | electroncash/slp_post_office.py:241 | Storing a document makes the host find it and leaves other hosts' lookups unchanged. A present host keeps its place and a new host goes last. |
| Client.Remove | electroncash/slp_post_office.py:237-239 | Dropping a host leaves it without a document and other hosts unchanged. Dropping an absent host changes nothing. |
| Client.RemoveKeepsOrder | electroncash/slp_post_office.py:237-239 | With distinct hosts, `pop` deletes exactly the host's one entry and the remaining hosts keep their order. |
| Client.PostOfficeClient.constructor | electroncash/slp_post_office.py:225-228 | A new client has an empty ban list, no postage documents and an empty rate table. |
| Client.PostOfficeClient.SetPostage | electroncash/slp_post_office.py:234-241 | A parsed document is stored under the host and a parse failure drops the host's document. The rate table and ban list are unchanged and the client stays valid. |
| Client.StampEntryKeepsOffers | electroncash/slp_post_office.py:283-284 | Writing the host into the stamps keeps the tokens a document offers and makes every stamp name that host. |
| Client.FirstHostIsFirstOffer | electroncash/slp_post_office.py:276-294 | The host picked for a token is that of the first document offering it, and there is none exactly when no document offers it. |
| Client.AddStamp | electroncash/slp_post_office.py:286-289 | A stamp is appended to its token's list, which is started when the token is new. Other tokens' lists are unchanged, and every list stays headed by the stamp of the first host offering its token. |
| Client.CollectStamps | electroncash/slp_post_office.py:283-289 | The stamp loop over one document writes the host into each stamp and records each of the document's tokens. |
| Client.CollectedIsFirstHost | electroncash/slp_post_office.py:276-288 | After all documents, the tokens recorded are exactly those some document offers, each with its first offering host. |
| Client.PickDocs | electroncash/slp_post_office.py:293-294 | Each token maps to the document of the host named by the first stamp in its list. |
| Client.PostOfficeClient.OptimizeRates | electroncash/slp_post_office.py:275-295 | Every document's stamps get their host written in and the ban list is unchanged. The table holds exactly the offered tokens; each maps to the stamped document of the first offering host, which offers the token and names that host in every stamp. |
| Client.PostOfficeClient.OptimizedPostageData | electroncash/slp_post_office.py:297-298 | An unknown token gives none; a known one gives its chosen document, which offers the token. |
| Client.PostOfficeClient.OptimizedPostOfficeUrl | electroncash/slp_post_office.py:300-302 | An unknown token raises a `KeyError`; a known one gives the chosen host followed by `/postage`. |
| Client.Banned | electroncash/slp_post_office.py:304-306 | After a ban the URL is listed, the earlier list is a prefix, at most one entry is added and no duplicate appears. |
| Client.PostOfficeClient.BanPostOffice | electroncash/slp_post_office.py:304-306 | A ban updates the ban list as `Banned` states and changes nothing else. |
| Client.RemoveFirst | electroncash/slp_post_office.py:308-310 | `remove` shortens a list holding the URL by one and leaves a list without it unchanged. |
| Client.RemoveFirstDeletesFirst | electroncash/slp_post_office.py:308-310 | The entry removed is the first occurrence of the URL; the entries before and after it stay, in order. |
| Client.RemoveFirstFromDistinct | electroncash/slp_post_office.py:308-310 | On a ban list without duplicates, allowing a URL removes it entirely and keeps every other entry and the absence of duplicates. |
| Client.PostOfficeClient.AllowPostOffice | electroncash/slp_post_office.py:308-310 | Allowing a URL removes it from the ban list and changes nothing else. |
| Client.StampRates | electroncash/slp_post_office.py:283-289 | The (host, rate) pairs of a document are exactly its stamps for the token: every such stamp gives a pair, every pair comes from one, and there are none exactly when no stamp is for the token. |
| Client.Candidates | electroncash/slp_post_office.py:276-292 | The candidate offers for a token come only from hosts that are not banned, and there are none exactly when no such host offers the token. |
| Client.CandidatesAreOffers | electroncash/slp_post_office.py:276-292 | A (host, rate) pair is a candidate exactly when a host that is not banned serves a stamp for the token at that rate. |
| Client.Cheapest | electroncash/slp_post_office.py:291-292 | The pair picked is a candidate whose rate is at most every candidate's rate. |
| Client.IntendedHost | electroncash/slp_post_office.py:291-302 | The host meant is not banned and serves a stamp for the token whose rate is at most that of every stamp for the token served by any host that is not banned. There is none exactly when no such host offers the token. |
| Client.FirstHostIgnoresRate | electroncash/slp_post_office.py:291-294 | With hosts a (rate 10) and b (rate 1), the code picks a and the cheapest is b. |
| Client.FirstHostIgnoresBan | electroncash/slp_post_office.py:276-294 | With host a banned, the code still picks a and the intended choice is b. |

## Left out

- Threads, `mainloop`, `bind_gui`, the GUI configuration flag and the module-level singleton are not modelled. They only schedule calls to `_fetch_postage_json` and `optimize_rates`.
- `_fetch_postage_json` (the HTTP request) is not modelled. `SetPostage` takes the outcome of `json.loads` as an optional document: absent for a `JSONDecodeError`.
- JSON that parses to something other than an object with `weight` and `stamps`, and stamps lacking `tokenId` or `rate`, are not modelled. Documents are well-typed values and only the two top-level keys may be missing.
- `stamp['rate'] = int(stamp['rate'])` in `optimize_rates` is not modelled, since rates are already integers here.
- Client.PostOfficeClient.OptimizeRates: documents are values, so the aliasing between `optimized_rates` and `postage_data` is not modelled. In Python a later `_set_postage` replaces the host's dictionary and the table keeps the old one; the model's copy behaves the same way.
- Postage.FreshPostage: requires that some stamp count leaves no deficit. The Python loop runs forever otherwise, for instance when the weight is zero or negative.
- Postage.IncrementalPostage: requires that some stamp count leaves no deficit, for the same reason.
- The coin chooser (`SlpCoinChooser.select_coins`) is not part of this model. It is a parameter, and its exceptions are not modelled.
- `wallet.add_input_info` is not modelled. It does not affect the calculation.
- `buildSendOpReturnOutput_V1`, `SlpMessage.parseSlpOutputScript` and `Transaction.from_io` are not part of this model. The message is its list of amounts, and the transaction is its list of outputs.
- `sign_slp_txn`, `sign_inputs_for_po_server` and `sign_inputs_from_payment_request` are not modelled. They are empty.
- `input_unit_size_schnorr` is not modelled. It is declared but never used.
- Python integers are unbounded, as are Dafny's, so no width is modelled.

## Findings

| source | as written | input that shows it | evidently intended | confidence | as-written member | corrected member |
|---|---|---|---|---|---|---|
| electroncash/slp_post_office.py:169 | `output_dust_count = 1` when exactly one of postage and change is positive | earlier message [0, 5, 7], send 12, rate 1, weight 1000, coins exactly covering send plus postage: the table raises "Unhandled exception"; with earlier message [0, 12] instead, the postage of 1 is paid for by the chosen coins but left out of the message, and `needs_postage` is False (`IncDropsPostageOnKeptSingle`) | `output_dust_count += 1`, as line 166 adds 2 | high (not executed) | Postage.IncRaisesOnKeptPair | Postage.IncTableIntended |
| electroncash/slp_post_office.py:292 | `sorted(...)` result discarded, so the first host offering a token is chosen | host a at rate 10 and host b at rate 1: a is chosen | the host of the cheapest stamp | high (not executed) | Client.FirstHostIgnoresRate | Client.IntendedHost |
| electroncash/slp_post_office.py:304-310 | `ban_list` is kept but never read by `optimize_rates` | host a banned, hosts a and b offering the token: a is chosen | banned hosts are skipped | medium (not executed) | Client.FirstHostIgnoresBan | Client.IntendedHost |
