# Parking and intrusion dashboard, and artisan content helpers — a Dafny model

This project models two Python scripts.

- **`mqtt_dash.py`**: a dashboard's shared state store (module `MqttDash`, file `mqtt_dash.dfy`). A broker listener receives messages on two parking-slot topics (`parking/slot1`, `parking/slot2`) and on an intrusion-alerts topic (`home/intrusion/alerts`). It records them in three lock-guarded containers:
  - the raw status payload of each slot, initially `"unknown"`;
  - the receive time of each slot's last message, initially `None`;
  - a newest-first list of at most 10 alert entries, each formatted `"[time] payload"`.

  A render loop copies these containers under the same lock. It then draws each slot as Occupied, Free or "Waiting for data...", with a "Last update" caption, and draws the alert list.
  - The store is the class `Store`. Its method `OnMessage` is the listener's locked section and `TakeSnapshot` is the render loop's.
  - The pure functions `Apply` (one message) and `ApplyAll` (a delivery sequence) specify the store.
  - `Snapshot`, `Classify`, `Caption` and `Render` model what one render tick draws.
- **`google_streamlit.py`**: prompt lookup and the retry policy (module `GoogleStreamlit`, file `google_streamlit.dfy`).
  - `GetPrompt` looks up a content type in the system-prompt table.
  - `GenerateContentFromApi` is the request loop: at most 3 requests, an exponential back-off of 1, 2 and 4 seconds, and early returns.
  - The HTTP layer is abstracted: `outcomes[n]` is what the n-th request produced, either a response or a request exception. The method returns three things: the reply (by kind), the list of delays it would have slept, and the number of requests made.
  - The loop is proved equal to the recursive reference `Run`. `RunExhaustedFrom`, `RunEndsAt` and `RunCharacterized` describe `Run` declaratively: the first outcome that ends the run decides the reply, and every request before it is followed by a doubled sleep.

`optional.dfy` holds the shared `Option` datatype, which stands for Python's `None` or a value.

The model follows the code in these details:
- The store keeps the raw payload string and classifies it only when rendering. It does not decode the payload into an enumeration on receipt.
- An unrecognised payload, the empty string included, overwrites the slot's previous value. It is then drawn as waiting for data.
- The topics and the capacity of 10 are fixed constants, not configuration.
- The caption test `if u1:` uses Python truthiness. A `None` timestamp and an empty timestamp both suppress the caption.

## Model

| member | source | states |
|---|---|---|
| `MqttDash.Initial` | mqtt_dash.py:14-16 | the start state is well formed; both slots hold "unknown" with no timestamp; the alert list is empty |
| `MqttDash.Store.constructor` | mqtt_dash.py:14-16 | the new store is valid and its state is the initial state |
| `MqttDash.Store.OnMessage` | mqtt_dash.py:23-35 | keeps the store valid; the new state is `Apply` of the old one. A slot topic overwrites that slot's value and time and leaves the alerts alone. An alert puts the formatted entry first, shifts the old entries down and keeps the length at or below 10. Any other topic changes nothing |
| `MqttDash.Apply` | mqtt_dash.py:28-35 | one message preserves the store's shape: the keys of both slot maps stay the two slot topics and the alert list stays within the capacity |
| `MqttDash.ApplyAll` | mqtt_dash.py:28-35 | any delivery sequence preserves the store's shape, so the alert list never exceeds 10 |
| `MqttDash.FormatAlert` | mqtt_dash.py:33 | an entry is "[" then the time, then "] ", then the payload. The time and the payload can each be read back from their positions |
| `MqttDash.PushAlert` | mqtt_dash.py:33-35 | the new entry is at index 0; the rest is a prefix of the old list; the length grows by one unless the list was full, in which case the oldest entry is dropped; capacity is preserved |
| `MqttDash.SlotMessageEffect` | mqtt_dash.py:29-31 | a slot message sets that slot's value to the payload and its timestamp to the receive time; the other slot and the alerts are unchanged |
| `MqttDash.AlertMessageEffect` | mqtt_dash.py:32-35 | an alert message puts "[t] payload" at index 0 and shifts earlier alerts down by one; the length is min(old + 1, 10); the slots are unchanged |
| `MqttDash.OtherTopicIgnored` | mqtt_dash.py:28-35 | a message on any other topic leaves the whole state unchanged |
| `MqttDash.IgnoredTopicsIrrelevant` | mqtt_dash.py:28-35 | a delivery sequence made only of topics outside the three subscribed ones leaves the state unchanged |
| `MqttDash.UnsubscribedDropped` | mqtt_dash.py:28-35 | messages on topics outside the three subscribed ones can be removed from any delivery sequence, wherever they occur, without changing the resulting state |
| `MqttDash.LastWrite` | mqtt_dash.py:30-31 | the last message on a topic in a sequence is one of its messages, has that topic, and no message on that topic follows it. If there is none, no message has that topic |
| `MqttDash.LastWriteWins` | mqtt_dash.py:30-31 | after any sequence each slot holds the payload and receive time of the last message on its topic, or its earlier value and time if there was none |
| `MqttDash.AlertsStep` | mqtt_dash.py:32-35 | the alert list changes only on an alerts-topic message, and then by `PushAlert` |
| `MqttDash.PushAlertTake` | mqtt_dash.py:33-35 | pushing onto the capped list equals capping after prepending, so evicting one entry per push keeps exactly the newest 10 |
| `MqttDash.AlertWindow` | mqtt_dash.py:32-35 | after any sequence the alerts are the newly received entries, newest first, followed by the earlier list, all cut to 10 |
| `MqttDash.WindowPush` | mqtt_dash.py:33-35 | one more alert entry moves the capped newest-first window by exactly that entry |
| `MqttDash.NewestFirstAt` | mqtt_dash.py:33 | the newest-first order is the reverse of the arrival order, element by element |
| `MqttDash.AlertsAfterPushes` | mqtt_dash.py:33-35 | from the initial store the alert list stays within 10 entries. It holds exactly the last min(n, 10) of the n alert entries, newest first (after 10 + k alerts, the last 10) |
| `MqttDash.TakeNewestFirst` | mqtt_dash.py:33-35 | capping the newest-first order at 10 gives the last min(n, 10) entries, newest first |
| `MqttDash.SlotStep` | mqtt_dash.py:29-31 | a slot's value and timestamp change only on a message on its own topic, and then to that message's payload and time |
| `MqttDash.Store.TakeSnapshot` | mqtt_dash.py:55-60 | the snapshot carries both slots' values and timestamps and a copy of the alert list; the store is not modified |
| `MqttDash.SnapshotOf` | mqtt_dash.py:55-60 | the snapshot of a state carries each slot's value and timestamp and the alert list |
| `MqttDash.SnapshotThenMessage` | mqtt_dash.py:55-60 | a snapshot taken before a message still equals the snapshot of the earlier state after the message has been applied |
| `MqttDash.Classify` | mqtt_dash.py:65-70 | Occupied if and only if the value is "occupied"; Free if and only if it is "free"; every other value, "unknown" and "" included, is waiting for data |
| `MqttDash.Caption` | mqtt_dash.py:71-72 | a caption appears if and only if the timestamp is present and non-empty, and it reads "Last update: " + timestamp |
| `MqttDash.Render` | mqtt_dash.py:62-93 | each slot panel shows the classified value and the caption of its snapshot; the alert panel shows the placeholder if and only if there are no alerts, and otherwise the alerts in snapshot order |
| `MqttDash.InitialView` | mqtt_dash.py:14-16 | before any message both slots are drawn as waiting with no caption, and the alert placeholder is shown |
| `GoogleStreamlit.GetPrompt` | google_streamlit.py:23-32 | 'name', 'story' and 'tagline' each give the base prompt, a blank line, then that type's own instruction, so the prompt is longer than the base prompt. Any other key gives exactly the base prompt |
| `GoogleStreamlit.Run` | google_streamlit.py:47-78 | the recursive reference of the policy makes at most 3 requests, and at least one more from every attempt it starts at |
| `GoogleStreamlit.FinalReply` | google_streamlit.py:53-76 | an ending outcome never produces the "failed after multiple retries" reply |
| `GoogleStreamlit.RunExhaustedFrom` | google_streamlit.py:61-78 | from any request on, if no outcome ends the run, every remaining request sleeps, each delay double the one before, and the run gives up after 3 requests |
| `GoogleStreamlit.RunEndsAt` | google_streamlit.py:49-76 | from any request on, the first ending outcome k decides the run. Each earlier request is followed by a doubling sleep, outcome k's reply is returned at once, and k + 1 requests are made |
| `GoogleStreamlit.RunCharacterized` | google_streamlit.py:47-78 | from the first request: if outcome k is the first that ends the run, the result is its reply, with k sleeps [1, 2, 4][..k] and k + 1 requests. Ending outcomes are 200 (text or extraction error), a status that is not retried, or an exception on the 3rd request. With none, the result is the give-up reply after sleeps [1, 2, 4] and 3 requests |
| `GoogleStreamlit.RetriesExhaustedIff` | google_streamlit.py:61-78 | the give-up reply happens if and only if no request ends the run. Three retried statuses (429 or at least 500) give up after sleeps [1, 2, 4] |
| `GoogleStreamlit.BackoffDoubles` | google_streamlit.py:61-74 | the back-off delays start at the first delay and each is twice the one before |
| `GoogleStreamlit.GenerateContentFromApi` | google_streamlit.py:47-78 | the loop returns exactly `Run` from the first request with a 1-second delay, and makes between 1 and 3 requests |
| `GoogleStreamlit.Decimal` | google_streamlit.py:68 | a status code is formatted as a non-empty string of decimal digits with no leading zero (only 0 itself begins with '0') |
| `GoogleStreamlit.DecimalRoundTrip` | google_streamlit.py:68 | the formatted status code reads back as the same number |
| `GoogleStreamlit.ReplyText` | google_streamlit.py:57-78 | generated text is returned unchanged; every other reply is a message that begins "Error: " |

## Left out

- MQTT client creation, `connect` and `loop_start` (mqtt_dash.py:38-42) are network I/O on the paho library's own thread.
- `on_connect` (mqtt_dash.py:19-21) only loops over the three topics and calls the library. The constant `Topics` records those topics; subscribing and reconnecting are not modelled.
- `threading.Lock` and the two threads: each `with state_lock:` block is one atomic method of `Store`, and interleavings are not modelled. A snapshot cannot be torn because it is one atomic method.
- SnapshotThenMessage: sequences are values in Dafny, so the model cannot represent the aliasing that `alerts.copy()` (mqtt_dash.py:60) prevents. The lemma would hold just as well if the render loop kept a reference to the live list.
- `datetime.now().strftime` and `msg.payload.decode()`: the formatted time and the decoded payload are parameters. A payload that fails to decode as UTF-8 is not modelled. The one `now()` call in each branch (mqtt_dash.py:31 for a slot, mqtt_dash.py:33 for an alert) is the `now` parameter.
- Streamlit rendering, the `while True` loop and `time.sleep(1)` (mqtt_dash.py:45-95): `Render` only records which indicator, caption and alert lines are chosen. Titles, subheaders and layout are left out.
- `requests.post`, the JSON response and `response.json()` (google_streamlit.py:51-57): a response is abstracted to its status, the extracted text if present, and its body. Malformed JSON, and shapes that raise `KeyError` or `IndexError` while extracting, are not modelled. In the source, `response.json()` (google_streamlit.py:54) runs inside the `try`, and with requests 2.27 or later its decode error is a `RequestException` caught at google_streamlit.py:70. A 200 response whose body is not JSON is therefore retried after a sleep, or gives the network-error reply on the last request. The model's statement that a 200 response ends the run holds only for bodies that parse as JSON.
- The request payload built from the system prompt and the user input (google_streamlit.py:41-45) is not modelled. Neither is the API URL.
- `st.warning`, `st.cache_data` and the whole page layout (google_streamlit.py:5-11, 81-144) are UI and caching. The model describes one uncached call. In the source both parameters of `generate_content_from_api` start with an underscore (google_streamlit.py:35), and Streamlit leaves such parameters out of the cache key, so after the first call the cached first reply, error replies included, would be returned for every prompt and input.
- `time.sleep(delay)` in the retry loop: the delay is recorded in `sleeps` instead of slept.
- GenerateContentFromApi: it requires at least 3 outcomes, one environment answer for each request the policy might make. Extra outcomes are never consumed.
