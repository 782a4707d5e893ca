# Svenska vägar road-incident sensors, modelled in Dafny

The Home Assistant integration `svenskavagar` polls a traffic-incident API
(`vagar.php`) for incidents within a radius of a point. It shows each incident
as a sensor entity. This project models the core of its sensor platform,
`custom_components/svenskavagar/sensor.py`:

- `fetch_road_data` after the GET. The decoded JSON body is an input (`Roads.Body`). The `road` list may be missing. The sentinel selection `"Visa alla"` ("show all") returns the list as given. Any other selection keeps the records of that subcategory, in order (`Roads.FetchRoadData`, `Roads.KeepSubcategory`).
- `RoadSensor` is a class with the fields the source updates (`road`, `state`) and the ones it sets once (`config`, `weeksActive`, `name`, `uniqueId`, `icon`). The unique id is Python's `str` of the integer record id (`IntText.Show`). A parser partner proves that distinct ids give distinct unique ids.
- `RoadSensor.update`, as `Sensor.RoadSensor.Update(now, reply)`. It first runs the strict age test `now - createddate > weeks_active weeks`. If the record is too old, the sensor is removed without looking at the reply. Otherwise the method searches the filtered reply for the first record with the sensor's id. A match replaces `road` and sets `state` to that record's description. No match removes the sensor. Every outcome except `Updated` leaves `road` and `state` unchanged.
- `async_setup_entry`, as `Sensor.SetupEntry`. It builds one fresh sensor per filtered record, in order.

Times are integer seconds. `timedelta(weeks=n)` is `n * 604800` (`Sensor.WeekSeconds`). `datetime.now()` becomes the `now` parameter. The HTTP reply becomes the `reply` parameter, an `Option<Body>`. `None` stands for the GET or `response.json()` raising. The GET raises on a transport error. `response.json()` raises on a body that is not JSON, and `data.get` raises when the top-level JSON value is not an object (sensor.py:30/32). In `update` that exception comes after the age test and before any change, so the model returns `FetchFailed` and changes nothing. In setup it means no sensors are added.

What the code does, and so what the model does:
- After a refresh the state is the record's description (sensor.py:76). The constructor sets it to `"Title: …\nDescription: …"` (sensor.py:43).
- There is no active-only rule: `show_only_active` is collected at config_flow.py:51 and never read in sensor.py.
- There is no empty-description rule.
- A non-2xx status does not raise by itself. A reply whose JSON body has no `road` key is `Some(Body(None))` in the model. It yields `[]` (sensor.py:30/32), so `Update` returns `Removed(NoLongerAvailable)` (sensor.py:80) and setup adds no sensors.

Files: `wrappers.dfy` (module `Wrappers`, the `Option` type), `roads.dfy` (module `Roads`), `int_text.dfy` (module `IntText`), `sensor.dfy` (module `Sensor`).

## Model

| member | source | states |
|---|---|---|
| `Roads.RoadList` | custom_components/svenskavagar/sensor.py:30 | a body without a `road` key gives the empty list; a present `road` list is returned unchanged |
| `Roads.KeepSubcategory` | custom_components/svenskavagar/sensor.py:32 | every kept record has the selected subcategory, and the result is no longer than the input |
| `Roads.FetchRoadData` | custom_components/svenskavagar/sensor.py:29-32 | "Visa alla" returns the `road` list exactly as given; any other selection returns only records of that subcategory; a missing `road` key gives the empty list for every selection |
| `Roads.KeepIsSubsequence` | custom_components/svenskavagar/sensor.py:32 | the comprehension's result is an order-preserving subsequence of its input |
| `Roads.KeepCount` | custom_components/svenskavagar/sensor.py:32 | each matching record occurs in the result exactly as often as in the input, and a non-matching one never occurs, so no match is dropped |
| `Roads.KeepMembership` | custom_components/svenskavagar/sensor.py:32 | a record is in the result if and only if it is in the input and has the selected subcategory |
| `Roads.KeepAllMatching` | custom_components/svenskavagar/sensor.py:32 | a list whose records all match passes the comprehension unchanged |
| `Roads.KeepIdempotent` | custom_components/svenskavagar/sensor.py:32 | applying the comprehension twice equals applying it once |
| `Roads.FetchIdempotent` | custom_components/svenskavagar/sensor.py:29-32 | filtering a body whose `road` list is a filter result returns that result, for every selection |
| `Roads.FetchIsSubsequence` | custom_components/svenskavagar/sensor.py:29-32 | for every selection the result is an order-preserving subsequence of the `road` list |
| `Roads.FetchCount` | custom_components/svenskavagar/sensor.py:29-32 | the number of copies of each record in the result: all of them for "Visa alla" or a matching subcategory, none otherwise |
| `IntText.Show` | custom_components/svenskavagar/sensor.py:40 | `str(id)` is a digit string, with a single leading '-' for a negative id |
| `IntText.ParseShow` | custom_components/svenskavagar/sensor.py:40 | reading the unique-id string back as a decimal integer gives the record id |
| `IntText.ShowInjective` | custom_components/svenskavagar/sensor.py:40 | two ids have the same unique-id string if and only if they are equal |
| `Sensor.RoadSensor.constructor` | custom_components/svenskavagar/sensor.py:35-44 | the sensor keeps the record, config and weeks; its name is the title, its unique id `str(id)`, its icon "mdi:alert", its state "Title: " + title + "\nDescription: " + description |
| `Sensor.RoadSensor.Update` | custom_components/svenskavagar/sensor.py:58-80 | removal for age exactly when `now - createddate > weeks_active * 604800`, before the reply is looked at; otherwise `Updated` if and only if the filtered reply holds the sensor's id, and then `road` is the first such record and `state` its description; no match means removal; every non-update leaves `road` and `state` unchanged; the unique id keeps matching the held record |
| `Sensor.SetupEntry` | custom_components/svenskavagar/sensor.py:10-23 | one fresh, distinct sensor per record of the filtered reply, in order, each built as the constructor states (record, config, weeks, name, unique id, icon, initial state); nothing when the fetch raised |

## Left out

- The HTTP GET and `response.json()` (sensor.py:26-28) are network I/O. The decoded body is a parameter, and `None` stands for the call raising. The URL text built from the coordinates and radius is not modelled. In `Update` the `reply` is taken to be the reply to the GET for the held record's coordinates and the configured radius and type.
- `datetime.strptime` and `datetime.now()` (sensor.py:59-60) are library parsing and a clock read. `createddate` and `now` are integer seconds. The sub-second part of `datetime.now()` is not modelled, and neither is a `createddate` text that `strptime` rejects.
- Sensor.RoadSensor.Update: `now` is a whole number of seconds, so an age that exceeds the window by less than a second survives in the model, while the source removes such a sensor.
- A `road` value that is present but not a list (JSON `null`, say) is not modelled: `Body.road` is either absent or a list of records. In the source, `data.get('road', [])` then returns that value. With "Visa alla", `fetch_road_data` returns it, and iterating it raises `TypeError` at sensor.py:21 or sensor.py:73. Any other selection raises at sensor.py:32. Also, `async_add_entities(sensors, True)` (sensor.py:23) makes the platform run `update` on each new sensor before adding it; the model does not chain `Update` after `SetupEntry`.
- Records with a missing key (`road['subcategory']`, `road['title']`, `road['id']` raising `KeyError`) are not modelled. Every record carries every field.
- Record ids are modelled as integers, compared with `==`. A string id, for which `str` is the identity, is not modelled.
- Home Assistant plumbing is not modelled: `async_add_entities`, `hass.async_create_task`, `async_remove` and logging (sensor.py:23, 62, 80, 82-85). A removal is the returned `Removed(reason)` outcome. The framework's handling of two sensors with the same unique id in one setup is not modelled either.
- `extra_state_attributes` (sensor.py:47-56) is a plain projection of the held record's fields into a dictionary.
- `config_flow.py` (setup form, type discovery, rounding coordinates to two decimals in floating point) and `__init__.py` (platform forwarding) are setup glue. The config values arrive as `Sensor.Config`. The form limits `weeks_active` to 1-4, but the model accepts any integer.
