# Garbage Collection: configuration wizard and collection-date arithmetic

This project models the core of the Garbage-Collection integration for Home Assistant. It has two parts:

- **The configuration wizard** (`config_flow.py`), modelled in module `ConfigFlow`:
  - the step controller `GarbageCollectionShared`, which walks four steps and accumulates a configuration record (`_data`, `name`, `errors`, `data_schema`);
  - the transcoders between comma-separated text, per-item check boxes and lists;
  - the date validators;
  - the routing from the chosen frequency to the next step.
- **The sensor entity** (`sensor.py`), modelled in module `Sensor`:
  - the calendar arithmetic that finds the next collection date of a schedule: the n-th weekday or week of a month, every n days, once a year, weekly patterns on ISO week numbers, the month range, holidays, excluded and included dates;
  - the entity's sorted list of collection dates, and the state and icon derived from it.

Three supporting modules model the parts of Python's run-time that the code relies on:

- `PyValues`: optional values, the exceptions raised or caught, and the untyped values of configuration dictionaries.
- `CivilDate`: the proleptic Gregorian calendar of `datetime.date`. It covers day ordinals (`toordinal`/`fromordinal`), `weekday()`, and the ISO 8601 week number of `isocalendar()` (ISO 8601:2004 section 4.1.4). The week number is computed as CPython computes it.
- `DateText`: the ISO 8601 extended calendar-date text `YYYY-MM-DD` of `date.fromisoformat`/`isoformat` (ISO 8601:2004 section 4.1.2), and the `strptime` grammars `"%Y-%m-%d"` and `"%m/%d"` as CPython's `_strptime` accepts them for ASCII digits (see "## Left out"). For example, `%m` accepts one digit and `"%m/%d"` fills in the year 1900.

## How the model is shaped

Pure code is modelled as functions:

- the string helpers and validators;
- `nth_week_date`, `nth_weekday_date`, `to_date`;
- `date_inside`, `move_to_range`, `_skip_holiday`, `_insert_include_date`;
- the every-n-days, annual and monthly candidates.

Code that changes state or loops is modelled as methods:

- `GarbageCollectionShared` is the class `ConfigFlow.Shared`. Its fields are the record, `name`, `errors`, `data_schema` and the defaults store. Each step method is proved to leave exactly the state that a specification function (`Step1` … `Step4`) gives.
- `days_to_list`/`weekdays_to_list` and `list_to_days`/`list_to_weekdays` are loops proved equal to `FlagsToList`/`ListToFlags`. The properties are proved as lemmas about those functions.
- The entity is the class `Sensor.GarbageCollection`. Its fields are the holidays, the collection dates, and the shown data (next date, last update, last collection, days, state, icon). The methods model:
  - the weekly `while` loops;
  - the monthly period loop;
  - `_async_skip_holidays`;
  - `_async_find_next_date`;
  - `_async_load_collection_dates`;
  - `add_date`, `remove_date`, `async_next_date`, `async_update_state`.

The parts of `config_definition` and voluptuous that the controller calls are the parameters of a `ConfigFlow.Definition`:

- the field/step table;
- validation, which returns the coerced input or an error message;
- display-schema compilation;
- `set_defaults`, `join_list` and the initial defaults;
- the frequency groups of `const`.

The wall clock, holidays, group members and text rendering are handled as follows:

- The clock is the `now`/`today` argument.
- The loaded holidays (and whether loading timed out) are arguments.
- The next date of a group member is the function field `memberNextDate`.
- The verbose text is the function field `verboseText`.

Python exceptions are modelled as values: a call yields `Ok(v)` or `Raised(e)`. Loops whose termination the code does not guarantee take a `fuel` bound, and running out is the distinct outcome `OutOfFuel`.

The code differs from the behaviour one might expect from the documentation of the option in one place. The model follows the code:

- `is_month_day("02/29")` is false, because `strptime("%m/%d")` uses the year 1900, which is not a leap year. See `ConfigFlow.LeapDayIsNoMonthDay`.

Three defects of the code are listed under "## Findings": the unreachable datetime branch of `to_date`, the monthly fallback that can return a date before day1 (which can stall the period loop), and the restart point of `_async_find_next_date` that can stay put. For each, a member exhibits the code as written, and the rest of the model uses the corrected definition. For the monthly fallback, the code's candidate (`MonthlyCandidate`) is kept where the code returns it without a period, and the corrected one (`PeriodCandidate`) drives the period loop.

## Model

| member | source | states |
|---|---|---|
| ConfigFlow.SplitCount | custom_components/garbage_collection/config_flow.py:480 | `split(",")` yields one more piece than the text has commas, and no piece contains a comma |
| ConfigFlow.SplitJoin | custom_components/garbage_collection/config_flow.py:480 | joining the pieces of `split(",")` with commas gives back the text |
| ConfigFlow.Strip | custom_components/garbage_collection/config_flow.py:480 | `strip("'\" ")` yields a contiguous slice of the text; only quote and space characters are cut on either side, and the result neither starts nor ends with one |
| ConfigFlow.StringToList | custom_components/garbage_collection/config_flow.py:474-480 | a list is returned unchanged; None and "" give []; a number or boolean raises AttributeError; other text gives (commas + 1) items |
| ConfigFlow.StringToListPieces | custom_components/garbage_collection/config_flow.py:474-480 | for non-empty text, item k is the k-th comma-separated piece stripped of quotes and spaces |
| ConfigFlow.IsDate | custom_components/garbage_collection/config_flow.py:463-471 | true exactly for "" and for text that `strptime("%Y-%m-%d")` accepts; non-text raises |
| ConfigFlow.IsDateAcceptsIsoText | custom_components/garbage_collection/config_flow.py:463-471 | `is_date` accepts the ISO text of every date in Python's year range |
| ConfigFlow.IsMonthDay | custom_components/garbage_collection/config_flow.py:454-460 | for text, true exactly when `strptime("%m/%d")` accepts it, false otherwise; non-text raises |
| ConfigFlow.MonthDayEveryYear | custom_components/garbage_collection/config_flow.py:454-460 | an accepted month/day is a valid date in every year (so February 29 is never accepted) |
| ConfigFlow.LeapDayIsNoMonthDay | custom_components/garbage_collection/config_flow.py:454-460 | "02/29" is rejected and "2/28" accepted |
| ConfigFlow.Elements | custom_components/garbage_collection/config_flow.py:554 | `for date in dates` iterates over a list's items or a text's characters, and raises TypeError on anything else |
| ConfigFlow.IsDates | custom_components/garbage_collection/config_flow.py:549-557 | the loop over a local `check` computes the result of `DatesValid` |
| ConfigFlow.DatesValidList | custom_components/garbage_collection/config_flow.py:549-557 | for a list, `is_dates` is true iff every element satisfies `is_date` (so `is_dates([])` is true) |
| ConfigFlow.DatesValid | custom_components/garbage_collection/config_flow.py:549-557 | reference definition of `is_dates`: true for []; TypeError from `for` or `is_date`; else whether every element is a date (proved equal to the loop by `IsDates`) |
| ConfigFlow.DayFlagKeys | custom_components/garbage_collection/config_flow.py:488-491 | the seven `collection_days_<day>` keys are distinct and none is the list key |
| ConfigFlow.OrdinalFlagKeys | custom_components/garbage_collection/config_flow.py:499-502 | the five `<prefix>_<i>` keys are distinct, differ from the prefix and end in a digit |
| ConfigFlow.OrdinalFlagKeysNotLists | custom_components/garbage_collection/config_flow.py:540-544 | no `<prefix>_<i>` key is one of the two ordinal list keys that `list_to_weekdays` drops |
| ConfigFlow.Selected | custom_components/garbage_collection/config_flow.py:488-490 | the items whose check box is ticked, taken from the first n: at most n of them |
| ConfigFlow.SelectedMembers | custom_components/garbage_collection/config_flow.py:488-490 | an item is in the list iff its check box is truthy |
| ConfigFlow.SelectedFrom | custom_components/garbage_collection/config_flow.py:488-490 | every listed item is an item whose box is ticked |
| ConfigFlow.SelectedOrdered | custom_components/garbage_collection/config_flow.py:488-490 | the list keeps the items' order |
| ConfigFlow.FlagsToList | custom_components/garbage_collection/config_flow.py:483-502 | reference definition of `days_to_list`/`weekdays_to_list` on a copy of the input; its properties are `FlagsToListConverts`, `DaysInWeekOrder` and `OrdinalsAscending` |
| ConfigFlow.FlagsToListLoop | custom_components/garbage_collection/config_flow.py:483-502 | the shared loop of `days_to_list`/`weekdays_to_list` computes `FlagsToList`: nothing changes if the list key is present; a missing box raises KeyError |
| ConfigFlow.DaysToList | custom_components/garbage_collection/config_flow.py:483-491 | `days_to_list` is `FlagsToList` over the seven day boxes and `WEEKDAYS` |
| ConfigFlow.WeekdaysToList | custom_components/garbage_collection/config_flow.py:494-502 | `weekdays_to_list` is `FlagsToList` over the five ordinal boxes and 1..5 |
| ConfigFlow.FlagsToListConverts | custom_components/garbage_collection/config_flow.py:483-502 | without the list key, the result lists exactly the ticked items; every box key is removed; every other key keeps its value |
| ConfigFlow.DaysInWeekOrder | custom_components/garbage_collection/config_flow.py:483-491 | the collected days are in `WEEKDAYS` order |
| ConfigFlow.OrdinalsAscending | custom_components/garbage_collection/config_flow.py:494-502 | the collected ordinals are ascending and each lies in 1..5 |
| ConfigFlow.Assign | custom_components/garbage_collection/config_flow.py:522-523 | `data_schema[key] = value` replaces the entry of an existing key in place and appends a new key at the end |
| ConfigFlow.RemoveKey | custom_components/garbage_collection/config_flow.py:115-116 | `del data_schema[key]` removes exactly the entries with that key and keeps the rest |
| ConfigFlow.Contains | custom_components/garbage_collection/config_flow.py:515 | `item in container` is list membership under `==`, and raises TypeError for containers that cannot be searched |
| ConfigFlow.FlagDefault | custom_components/garbage_collection/config_flow.py:513-516 | a check box defaults to false when the defaults lack the list key; only a TypeError can escape |
| ConfigFlow.Kept | custom_components/garbage_collection/config_flow.py:519-521 | the entries put back are previous entries without the dropped keys |
| ConfigFlow.KeptDistinct | custom_components/garbage_collection/config_flow.py:519-521 | the entries put back keep distinct keys |
| ConfigFlow.FlagBlock | custom_components/garbage_collection/config_flow.py:509-518 | one required check box per item, in item order |
| ConfigFlow.ListToFlags | custom_components/garbage_collection/config_flow.py:505-546 | rebuilding the schema fails only with TypeError |
| ConfigFlow.ListToFlagsLoop | custom_components/garbage_collection/config_flow.py:505-546 | the clear-and-refill loop of `list_to_days`/`list_to_weekdays` computes `ListToFlags`: first the boxes (defaulting to membership in the stored list), then the previous entries except the list keys, in order |
| ConfigFlow.FlagValidatorStep | custom_components/garbage_collection/config_flow.py:522-523 | putting back one more previous entry updates a box's validator only when the keys match |
| ConfigFlow.AssignPutsBack | custom_components/garbage_collection/config_flow.py:522-523 | each step of the put-back loop keeps the schema equal to the boxes followed by the kept entries |
| ConfigFlow.PutBackFlag | custom_components/garbage_collection/config_flow.py:522-523 | putting back an entry whose key is a box key overwrites that box in place |
| ConfigFlow.PutBackOther | custom_components/garbage_collection/config_flow.py:522-523 | putting back any other entry appends it |
| ConfigFlow.ListToDays | custom_components/garbage_collection/config_flow.py:505-523 | `list_to_days` is `ListToFlags` over the day boxes, dropping `collection_days` |
| ConfigFlow.ListToWeekdays | custom_components/garbage_collection/config_flow.py:526-546 | `list_to_weekdays` is `ListToFlags` over the ordinal boxes, dropping both ordinal lists |
| ConfigFlow.Submitted | custom_components/garbage_collection/config_flow.py:505-523 | a form that keeps its defaults submits only keys of the schema |
| ConfigFlow.SubmittedAt | custom_components/garbage_collection/config_flow.py:505-523 | each field with a default is submitted with that default |
| ConfigFlow.FlagsRoundTrip | custom_components/garbage_collection/config_flow.py:483-546 | the boxes that `list_to_*` builds, submitted unchanged and collected by `*_to_list`, list exactly the items of the stored default list |
| ConfigFlow.DaysRoundTrip | custom_components/garbage_collection/config_flow.py:483-523 | the same round trip for the collection days |
| ConfigFlow.UpdatedState | custom_components/garbage_collection/config_flow.py:50-63 | all entries of u are stored, except that blank fields of the step are removed; `name` is moved out of the record; fields of other steps not in u keep their values; errors and schemas are untouched |
| ConfigFlow.Cleaned | custom_components/garbage_collection/config_flow.py:58-60 | the merged record without the step's fields that u leaves out or empty (the `del` loop of `update_data`) |
| ConfigFlow.Shared.UpdateData | custom_components/garbage_collection/config_flow.py:50-63 | `update_data` leaves the controller in `UpdatedState` |
| ConfigFlow.ConvertKey | custom_components/garbage_collection/config_flow.py:70-77 | a missing key leaves the input as it is; a present key's value becomes `string_to_list` of it, and the conversion raises exactly when `string_to_list` raises, with its error; every other entry and the key set stay the same |
| ConfigFlow.ConvertDateLists | custom_components/garbage_collection/config_flow.py:70-77 | both date-list texts that are present become `string_to_list` of their values; the conversion raises exactly when one of them raises; every other entry and the key set stay the same |
| ConfigFlow.ErrorKind | custom_components/garbage_collection/config_flow.py:85-102 | the error kind follows the priority date (include/exclude/first date) > icon > time > value, each case stated as an iff |
| ConfigFlow.Step1 | custom_components/garbage_collection/config_flow.py:65-117 | step 1 returns true iff there is input, it converts, and it validates; on success the record is exactly `update_data` of the converted input at step 1 and the errors are cleared; otherwise the record is kept; a failure reports one error kind; with defaults, `name` is neither validated nor shown |
| ConfigFlow.Show1 | custom_components/garbage_collection/config_flow.py:108-117 | showing step 1 changes only the display schema, which lacks `name` when editing options |
| ConfigFlow.Shared.Step1UserInit | custom_components/garbage_collection/config_flow.py:65-117 | the method's result and new state are those of `Step1` |
| ConfigFlow.Shared.ShowUser | custom_components/garbage_collection/config_flow.py:108-117 | the method's result and new state are those of `Show1` |
| ConfigFlow.Step2 | custom_components/garbage_collection/config_flow.py:119-151 | step 2 advances exactly when the input is non-empty, validates against the stored frequency and, for group frequencies, has an `entities` text that converts; on success the record is `update_data` of the validated output at step 2, with `entities` replaced by the converted list for group frequencies; on failure the record is kept and the error is `month_day` for annual frequencies, `entities` otherwise; with no frequency stored it raises KeyError |
| ConfigFlow.Show2 | custom_components/garbage_collection/config_flow.py:146-151 | showing step 2 never advances and keeps the record and errors |
| ConfigFlow.Shared.Step2AnnualGroup | custom_components/garbage_collection/config_flow.py:119-151 | the method's result and new state are those of `Step2` |
| ConfigFlow.ListLength | custom_components/garbage_collection/config_flow.py:173 | `len(d[key])`: KeyError for a missing key, and otherwise the `len` of the stored value (the item count of a list) |
| ConfigFlow.DetailInput | custom_components/garbage_collection/config_flow.py:157-171 | the step-3 input after `days_to_list` and the step-3 schema, with whether validation passed; a missing box or frequency raises KeyError |
| ConfigFlow.Step3 | custom_components/garbage_collection/config_flow.py:153-195 | step 3 advances exactly when the input is non-empty, validation passed and the day list is non-empty; on success the record is `update_data` of the validated detail input at step 3; an empty day list always fails with `days`, even over a `value` error, and a failed validation with a non-empty day list fails with `value` |
| ConfigFlow.Show3 | custom_components/garbage_collection/config_flow.py:179-195 | showing step 3 changes only the display schema |
| ConfigFlow.Shared.Step3Detail | custom_components/garbage_collection/config_flow.py:153-195 | the method's result and new state are those of `Step3` |
| ConfigFlow.Shared.ShowDetail | custom_components/garbage_collection/config_flow.py:179-195 | the method's result and new state are those of `Show3` |
| ConfigFlow.OrdinalCheck | custom_components/garbage_collection/config_flow.py:223-229 | for monthly frequencies, passing the check means the ordinal list selected by the toggle is non-empty |
| ConfigFlow.OrdinalInput | custom_components/garbage_collection/config_flow.py:202-206 | for monthly frequencies, `weekdays_to_list` for the list the toggle selects; other frequencies keep the input |
| ConfigFlow.FinalInput | custom_components/garbage_collection/config_flow.py:201-222 | the step-4 input after `OrdinalInput`, `string_to_list` of the holidays to drop and the step-4 schema, with whether validation passed |
| ConfigFlow.Shared.ReadFinalInput | custom_components/garbage_collection/config_flow.py:201-222 | the step-4 input conversion and validation computes `FinalInput` |
| ConfigFlow.Shared.CheckOrdinals | custom_components/garbage_collection/config_flow.py:223-229 | the ordinal-list check computes `OrdinalCheck` |
| ConfigFlow.Finalize | custom_components/garbage_collection/config_flow.py:232-241 | after the clean-up, neither the toggle nor `name` is in the record; a true toggle removes the weekday list and a false one the week list; nothing else is removed or changed |
| ConfigFlow.Shared.Cleanup | custom_components/garbage_collection/config_flow.py:232-241 | the clean-up leaves the controller in `Finalize` |
| ConfigFlow.Step4 | custom_components/garbage_collection/config_flow.py:197-254 | step 4 advances exactly when the input is non-empty, converts, validates and passes the ordinal check; a failure with a converted input reports the empty ordinal list's key when the check fails and `value` when only validation failed; on success the record is the clean-up (`Finalize`) of `update_data` with the step-4 input, so a true toggle removes `weekday_order_number`, a false one `week_order_number`, and neither the toggle nor `name` remains; a failure keeps the record |
| ConfigFlow.Show4 | custom_components/garbage_collection/config_flow.py:243-254 | showing step 4 changes only the display schema |
| ConfigFlow.Step4KeepsOrdinalList | custom_components/garbage_collection/config_flow.py:223-242 | for a monthly frequency, after a successful step 4 the ordinal list in use is in the record and non-empty |
| ConfigFlow.Shared.Step4Final | custom_components/garbage_collection/config_flow.py:197-254 | the method's result and new state are those of `Step4` |
| ConfigFlow.Shared.ShowFinal | custom_components/garbage_collection/config_flow.py:243-254 | the method's result and new state are those of `Show4` |
| ConfigFlow.Shared.constructor | custom_components/garbage_collection/config_flow.py:42-48 | a new controller holds only the unique id, no name, no errors and an empty schema |
| ConfigFlow.Shared.Frequency | custom_components/garbage_collection/config_flow.py:256-262 | `frequency` is the stored frequency, or None when there is none |
| ConfigFlow.NextStep | custom_components/garbage_collection/config_flow.py:288-293 | annual and group frequencies go to `annual_group`, daily and blank ones to `final`, all others to `detail`; each move goes strictly forward |
| ConfigFlow.Path | custom_components/garbage_collection/config_flow.py:283-349 | the steps of a flow in which every step succeeds start at the given step and end where an entry is created |
| ConfigFlow.RoutingPaths | custom_components/garbage_collection/config_flow.py:283-349 | a flow passes `annual_group` iff the frequency is annual or group; it passes `detail` iff the frequency is neither that nor daily/blank; it passes `final` otherwise; it ends at `annual_group` or `final` |
| CivilDate.FromToOrdinal | custom_components/garbage_collection/sensor.py:442 | date arithmetic through day ordinals: `fromordinal(toordinal(d)) == d` |
| CivilDate.OrdinalOrder | custom_components/garbage_collection/sensor.py:653 | comparing dates is comparing their ordinals |
| CivilDate.AddDays | custom_components/garbage_collection/sensor.py:442 | `d + timedelta(days=n)` lies n ordinals after d |
| CivilDate.WeekdayAddDays | custom_components/garbage_collection/sensor.py:416 | moving n days moves `weekday()` by n modulo 7 |
| CivilDate.Weekday | custom_components/garbage_collection/sensor.py:416 | `weekday()` lies in 0..6, Monday being 0 |
| CivilDate.IsoCalendar | custom_components/garbage_collection/sensor.py:415 | `isocalendar()` gives a week number 1..53 and the ISO weekday `weekday() + 1` |
| CivilDate.IsoWeek | custom_components/garbage_collection/sensor.py:415 | `isocalendar()[1]` lies in 1..53 |
| CivilDate.IsoYearLength | custom_components/garbage_collection/sensor.py:443 | an ISO year has 52 or 53 weeks |
| DateText.ParseFormatIso | custom_components/garbage_collection/sensor.py:110 | `fromisoformat(isoformat(d)) == d` in Python's year range |
| DateText.FormatParseIso | custom_components/garbage_collection/sensor.py:110 | text that `fromisoformat` accepts is the `isoformat` of its date |
| DateText.ParseIso | custom_components/garbage_collection/sensor.py:110 | `date.fromisoformat` as in Python 3.7–3.10 accepts only `YYYY-MM-DD` text of a valid date in Python's year range |
| DateText.FormatIso | custom_components/garbage_collection/sensor.py:145 | `isoformat()` is ten characters with dashes at positions 4 and 7 |
| DateText.StrptimeAcceptsIso | custom_components/garbage_collection/config_flow.py:468 | `strptime("%Y-%m-%d")` accepts every ISO date text, with the same date |
| DateText.StrptimeYmd | custom_components/garbage_collection/config_flow.py:468 | `strptime("%Y-%m-%d")` yields only dates in Python's year range |
| DateText.StrptimeMd | custom_components/garbage_collection/config_flow.py:457 | `strptime("%m/%d")` yields only dates of the year 1900 |
| DateText.MonthDayValidEveryYear | custom_components/garbage_collection/sensor.py:474-482 | the month and day accepted by `"%m/%d"` form a valid date in any year |
| Sensor.NthWeekDate | custom_components/garbage_collection/sensor.py:80-85 | the result falls on `collection_day`, in the calendar week n - 1 weeks after the week of the 1st of the month |
| Sensor.NthWeekdayDate | custom_components/garbage_collection/sensor.py:88-99 | the result falls on `collection_day` and lies (n-1)*7 + d days after the 1st of the month, with 0 <= d <= 6 |
| Sensor.ToDate | custom_components/garbage_collection/sensor.py:102-110 | None raises ValueError; a date is kept; a datetime gives its date; text converts iff it is ISO date text (its `isoformat` gives it back); any other value raises TypeError |
| Sensor.ToDateAsWritten | custom_components/garbage_collection/sensor.py:102-110 | `to_date` as written returns a date or a datetime, and raises exactly when `ToDate` does |
| Sensor.MomentPassesUnconverted | custom_components/garbage_collection/sensor.py:106-109 | as written, a datetime comes back unchanged, while `ToDate` gives its date |
| Sensor.ToDates | custom_components/garbage_collection/sensor.py:129-137 | the result is `Converted`: the values that convert, in list order, with ValueError items skipped; it raises TypeError iff some value has another type; every result date comes from a value of the list |
| Sensor.ConvertedSnoc | custom_components/garbage_collection/sensor.py:132-137 | converting one more value appends its date when it converts and nothing otherwise |
| Sensor.ConvertedMembers | custom_components/garbage_collection/sensor.py:132-137 | a date is in the converted list iff some value of the list converts to it |
| Sensor.ConvertedBounds | custom_components/garbage_collection/sensor.py:132-137 | the converted list has no more dates than values, and each comes from a value |
| Sensor.ToDatesSnoc | custom_components/garbage_collection/sensor.py:132-137 | one turn of the loop of `to_dates`: the TypeError of the earlier values persists; a new date is appended; a ValueError value is skipped; a TypeError value raises |
| Sensor.ToDatesKeepsDates | custom_components/garbage_collection/sensor.py:129-137 | a date appended to the input is appended to the result |
| Sensor.ConvertDates | custom_components/garbage_collection/sensor.py:129-137 | the appending loop computes `ToDates`; a stored None raises TypeError |
| Sensor.MonthNumber | custom_components/garbage_collection/sensor.py:162-171 | a month name in `MONTH_OPTIONS` gives its 1-based position; any other value gives the default (1 or 12) |
| Sensor.Derive | custom_components/garbage_collection/sensor.py:154-213 | months default to 1 and 12; week numbers are forced iff the week list is given and non-empty; the include and exclude dates are `Converted` of their entries; the first date is `to_date` of its entry and present iff that converts; frequency, days, period and offset are copied; derivation fails (TypeError) exactly when a date entry is None or raises TypeError |
| Sensor.DateList | custom_components/garbage_collection/sensor.py:177-178 | converting a date-list entry fails exactly on a stored None or a value of another type |
| Sensor.Configured | custom_components/garbage_collection/sensor.py:162-176 | the month numbers, the force flag and the converted dates of a configuration |
| Sensor.NewSensor | custom_components/garbage_collection/sensor.py:154-213 | a new entity has the derived schedule and the initial state, or the TypeError of the derivation |
| Sensor.GarbageCollection.constructor | custom_components/garbage_collection/sensor.py:186-213 | nothing is loaded or shown; the state is "" or 2 as verbose state is set; the icon is the normal icon |
| Sensor.DateInsideCyclic | custom_components/garbage_collection/sensor.py:365-370 | `date_inside` accepts exactly the months met when stepping from the first month to the last, wrapping past December |
| Sensor.MoveToRange | custom_components/garbage_collection/sensor.py:600-621 | an include date or a date inside the range is kept; any other date moves forward to the 1st of the first month, which is inside the range |
| Sensor.MoveToRangeEarliest | custom_components/garbage_collection/sensor.py:600-621 | no date between d and its moved date is inside the range |
| Sensor.MoveToRangeIdempotent | custom_components/garbage_collection/sensor.py:600-621 | `move_to_range` applied twice gives the same date as applied once |
| Sensor.DateInside | custom_components/garbage_collection/sensor.py:365-370 | reference definition of `date_inside`: the month lies between the first and last month, wrapping past December when the first comes after the last (characterised by `DateInsideCyclic`) |
| Sensor.CollectionDayIndex | custom_components/garbage_collection/sensor.py:440 | `WEEKDAYS.index(collection_days[0])` succeeds iff the first day is a weekday name, giving its index; TypeError without a list; IndexError for an empty one |
| Sensor.CompletePeriod | custom_components/garbage_collection/sensor.py:451-453 | adding `period - gap % period` to the gap completes a whole period |
| Sensor.EveryNDaysCandidate | custom_components/garbage_collection/sensor.py:449-459 | fails exactly without a first date or period (ValueError), or with period 0 (ZeroDivisionError); for a positive period c >= day1, c - day1 < period and (c - first_date) % period == 0 |
| Sensor.AnnualCandidate | custom_components/garbage_collection/sensor.py:471-483 | succeeds iff the date parses as `"%m/%d"`, else ValueError; the result has that month and day, is not before day1, and is in day1's year iff that date has not passed |
| Sensor.NthDates | custom_components/garbage_collection/sensor.py:374-391 | the dates of the listed ordinals in the month, in list order |
| Sensor.NextMonthStart | custom_components/garbage_collection/sensor.py:392-395 | the 1st of the following month, after d |
| Sensor.FirstListedDate | custom_components/garbage_collection/sensor.py:374-391 | the loop over the ordinal list: the date of the first listed number (in list order) not before day1, on the collection weekday; None exactly when every listed date of the month is before day1 |
| Sensor.MonthlyDateAsWritten | custom_components/garbage_collection/sensor.py:372-406 | as the code computes it: on the collection weekday; the first listed date of day1's month not before day1, or, when all have passed, the date of the first ordinal in the next month, whether or not that is before day1 |
| Sensor.MonthlyDate | custom_components/garbage_collection/sensor.py:372-406 | the corrected monthly date (see "## Findings"): on the collection weekday; the first listed date of day1's month not before day1, else the first listed date of the next month not before day1, else the first ordinal's date in the month after; never before day1 when the first ordinal is at least 1; equal to `MonthlyDateAsWritten` wherever that is not before day1 |
| Sensor.MonthlyCandidate | custom_components/garbage_collection/sensor.py:372-406 | as the code computes it: succeeds iff the ordinal list is non-empty and the first collection day is a weekday; no list raises TypeError and an empty list IndexError; the result is the `MonthlyDateAsWritten` of day1, on the collection weekday |
| Sensor.PeriodCandidate | custom_components/garbage_collection/sensor.py:372-406 | the corrected candidate the period loop uses: raises exactly as `MonthlyCandidate` does; otherwise the `MonthlyDate` of day1, on the collection weekday, not before day1 when the first ordinal is at least 1, and equal to `MonthlyCandidate` wherever that is not before day1 |
| Sensor.WeekCycle | custom_components/garbage_collection/sensor.py:421-432 | the period and first week of a weekly pattern (1/1, 2/2, 2/1 or configured); the period is never 0 |
| Sensor.ThisWeekCollection | custom_components/garbage_collection/sensor.py:434-439 | a collection weekday later in day1's collection week is a weekly collection date |
| Sensor.LaterWeekCollection | custom_components/garbage_collection/sensor.py:440-447 | the first collection weekday of a later collection week is a weekly collection date |
| Sensor.LaterCycleCollection | custom_components/garbage_collection/sensor.py:440-447 | the same, for the cycle's week test |
| Sensor.ScanFails | custom_components/garbage_collection/sensor.py:435-439 | a scan stopping at a name that is not a weekday has not passed the whole list and has found an unknown name |
| Sensor.ScanFinds | custom_components/garbage_collection/sensor.py:435-439 | a scan stopping at a weekday not before `weekday` gives an offset within the rest of the week, to a listed day |
| Sensor.FoundWeek | custom_components/garbage_collection/sensor.py:440-447 | the `iterate_by_week` loop stopping at week w after passing weeks 1..w-1 has found the first due week |
| Sensor.PassedWeek | custom_components/garbage_collection/sensor.py:440-447 | the loop passing a week that is not due extends the run of passed weeks by one |
| Sensor.PickThisWeek | custom_components/garbage_collection/sensor.py:433-439 | in a due week, the first listed day not before day1's weekday is the pick |
| Sensor.PickLaterWeek | custom_components/garbage_collection/sensor.py:440-447 | when day1's week is not due or has no listed day left, the first due week after it gives the pick |
| Sensor.GarbageCollection.WeekOffset | custom_components/garbage_collection/sensor.py:435-439 | -1 exactly when every listed name is a weekday before `weekday`; otherwise, if the first name in list order that is not such a weekday is a weekday, its offset from `weekday` (0..6 - weekday), and if it is not a weekday, ValueError; a list of weekdays never raises |
| Sensor.GarbageCollection.Shift | custom_components/garbage_collection/sensor.py:442 | the shifted date lies n ordinals later |
| Sensor.GarbageCollection.ThisWeekDate | custom_components/garbage_collection/sensor.py:434-448 | the date `offset` days on in a collection week is a weekly collection date |
| Sensor.GarbageCollection.WeeksAhead | custom_components/garbage_collection/sensor.py:440-447 | the date found is the first collection day of the first due week after day1's week (`FirstDueWeekAhead`); running out of fuel means none of the first `fuel` weeks is due |
| Sensor.GarbageCollection.WeeklyFrom | custom_components/garbage_collection/sensor.py:433-448 | a returned date is `WeeklyPick`: in a due week, the first listed day not before day1's weekday, else the first collection day of the first due week after it; an error comes only from the day list or an unknown day name |
| Sensor.GarbageCollection.WeeklyCandidate | custom_components/garbage_collection/sensor.py:418-448 | a missing or zero every-n-weeks period, or a missing first week, raises the error of `(week - first_week) % period`; a returned date is the `WeeklyPick` of the schedule's cycle, hence on a configured day and not before day1 |
| Sensor.GarbageCollection.NextMonthly | custom_components/garbage_collection/sensor.py:467-468 | `candidate + 1 day` fed to the corrected candidate (`PeriodCandidate`) is the next link of the period loop's chain |
| Sensor.ChainNext | custom_components/garbage_collection/sensor.py:467-468 | the next link of the chain is the corrected candidate (`PeriodCandidate`) from the day after the last link |
| Sensor.ChainWeekday | custom_components/garbage_collection/sensor.py:467-468 | every link of a chain that starts on the collection weekday is on it |
| Sensor.DueMonthTest | custom_components/garbage_collection/sensor.py:466 | a month is due exactly when the loop guard `(month - first_month) % period != 0` is false |
| Sensor.MonthPassed | custom_components/garbage_collection/sensor.py:466-468 | a turn of the loop past a month that is not due extends the run of passed candidates by one |
| Sensor.ChainFound | custom_components/garbage_collection/sensor.py:466-469 | the loop stopping at a due candidate after passing the ones before has found the first due candidate |
| Sensor.FirstDueIsCollection | custom_components/garbage_collection/sensor.py:466-469 | the first due candidate of a chain from the collection weekday is a monthly collection date |
| Sensor.GarbageCollection.PeriodMonth | custom_components/garbage_collection/sensor.py:466-469 | a date the period loop stops at is the first candidate of its chain (each the corrected candidate from the day after the one before) whose month is a whole number of periods after the first month; running out of fuel means none of the first `fuel` + 1 candidates is due |
| Sensor.GarbageCollection.MonthlyWithPeriod | custom_components/garbage_collection/sensor.py:460-470 | with no period or period 1 (or a failing candidate) this is the monthly candidate itself; period 0 raises ZeroDivisionError; otherwise the result is the first due candidate of the chain from the corrected candidate (`PeriodCandidate`) of day1, a monthly collection date |
| Sensor.GarbageCollection.GroupCandidate | custom_components/garbage_collection/sensor.py:484-497 | the earliest next date of the group's members; KeyError and TypeError become ValueError; a missing entity list raises ValueError |
| Sensor.GarbageCollection.FindCandidate | custom_components/garbage_collection/sensor.py:408-499 | blank gives None; a weekly frequency gives the `WeeklyPick` of its cycle; a monthly one the code's monthly candidate, or with a period the first due candidate of the chain from the corrected candidate; every-n-days and annual give their candidates; an unknown frequency raises ValueError |
| Sensor.HolidayStep | custom_components/garbage_collection/sensor.py:541-545 | the holiday move offset, or 1 when it is None or 0; never 0 |
| Sensor.SkipHoliday | custom_components/garbage_collection/sensor.py:539-546 | `_skip_holiday` moves the date by the holiday step |
| Sensor.HolidayInWeek | custom_components/garbage_collection/sensor.py:503-512 | reference definition of the `holiday_in_week_move` test: some holiday lies from the Monday of the candidate's week up to the candidate (used by `SkipHolidays`) |
| Sensor.GarbageCollection.SkipHolidays | custom_components/garbage_collection/sensor.py:501-525 | the result is never a holiday; it is the candidate itself iff the candidate is no holiday and no in-week move applies; it moves in the direction of the offset; it is exactly `PastHolidays` of the candidate, moved one step first when a holiday lies earlier in its week and the in-week move is on |
| Sensor.PastHolidays | custom_components/garbage_collection/sensor.py:522-523 | `while date in holidays: skip` ends on a day that is no holiday, in the direction of the step, and leaves a non-holiday alone |
| Sensor.PastHolidaysSteps | custom_components/garbage_collection/sensor.py:522-523 | the result is the date moved k holiday steps for the least such k: every date stepped over is a holiday |
| Sensor.FirstNotBefore | custom_components/garbage_collection/sensor.py:529 | the position of the first include date not before day1, in list order |
| Sensor.InsertIncludeDate | custom_components/garbage_collection/sensor.py:527-537 | a found date is replaced only by the first include date (in list order) not before day1, and only when it is earlier; that include date does replace it whenever it is earlier or there is no found date; with no found date, the result is None iff no include date lies on or after day1 |
| Sensor.NextSearchStartAsWritten | custom_components/garbage_collection/sensor.py:646-661 | as the code does it, the search goes on at the 1st of the first month when `move_to_range` moved the candidate, else at the day after day1 |
| Sensor.NextSearchStart | custom_components/garbage_collection/sensor.py:646-661 | the corrected restart point (see "## Findings"): always after day1, and equal to the code's wherever the candidate is not before day1 |
| Sensor.GarbageCollection.FindNextDate | custom_components/garbage_collection/sensor.py:623-663 | blank gives None; a missing offset raises TypeError; a ValueError never escapes; the date where the loop stops is not before first_date, not excluded, not a holiday and fixed by `move_to_range`; the result is that date or an earlier include date |
| Sensor.PrependSorted | custom_components/garbage_collection/sensor.py:684 | a date not after a sorted list stays sorted in front of it |
| Sensor.InsertDate | custom_components/garbage_collection/sensor.py:689-690 | inserting into a sorted list gives a sorted list with that date added |
| Sensor.SortDates | custom_components/garbage_collection/sensor.py:684 | `list.sort()` gives a sorted permutation |
| Sensor.SortedArrangementUnique | custom_components/garbage_collection/sensor.py:684 | two sorted permutations of the same dates are equal |
| Sensor.InsertedFollow | custom_components/garbage_collection/sensor.py:689-690 | after the head of a sorted list and a later date come only dates that follow the head |
| Sensor.HeadIsLeast | custom_components/garbage_collection/sensor.py:684 | the head of a sorted list is its least date |
| Sensor.SortedTail | custom_components/garbage_collection/sensor.py:684 | the tail of a sorted list is sorted |
| Sensor.RemoveFirst | custom_components/garbage_collection/sensor.py:696 | `list.remove(x)` removes one occurrence |
| Sensor.RemoveKeepsSorted | custom_components/garbage_collection/sensor.py:696 | removing a date keeps a sorted list sorted |
| Sensor.SameDates | custom_components/garbage_collection/sensor.py:684 | sorting keeps the dates that are listed |
| Sensor.AddToSorted | custom_components/garbage_collection/sensor.py:686-690 | appending and sorting a sorted list is inserting in order |
| Sensor.GarbageCollection.LoadCollectionDates | custom_components/garbage_collection/sensor.py:665-684 | blank changes nothing; a timeout leaves the list empty; after completion the list is sorted and every date lies between January 1 of last year and December 31 of next year; every date is an include date or collectable; the shown state is unchanged |
| Sensor.GarbageCollection.AddDate | custom_components/garbage_collection/sensor.py:686-692 | a listed date raises KeyError and leaves the list unchanged; otherwise the list becomes the sorted list with the date |
| Sensor.GarbageCollection.RemoveDate | custom_components/garbage_collection/sensor.py:694-696 | an unlisted date raises ValueError and leaves the list unchanged; otherwise one occurrence is removed |
| Sensor.GarbageCollection.FirstEligible | custom_components/garbage_collection/sensor.py:703-719 | the first listed date not before first_date, skipping today once its collection has expired; None when there is none |
| Sensor.GarbageCollection.NextDate | custom_components/garbage_collection/sensor.py:698-719 | the loop returns `FirstEligible` |
| Sensor.GarbageCollection.UpdateState | custom_components/garbage_collection/sensor.py:739-781 | next date from today; days = next - today; for more than one day the state is 2 or the verbose text, with the normal icon; for 1 it is 1/tomorrow with the tomorrow icon; for 0 it is 0/today with the today icon; with no next date only the day count is cleared |
| Sensor.GarbageCollection.Expired | custom_components/garbage_collection/sensor.py:707-716 | reference definition of the expiry test: past `expire_after` (23:59:59 by default), or marked collected today at or before now |
| Sensor.GarbageCollection.Eligible | custom_components/garbage_collection/sensor.py:703-717 | reference definition of the date `async_next_date` may return: not before `first_date`, and not an expired today unless today is ignored (used by `FirstEligible`) |
| Sensor.FallbackOfOne | custom_components/garbage_collection/sensor.py:392-406 | with one ordinal number whose date in day1's month has passed, the code's monthly date is that number's date in the next month |
| Sensor.FallbackBeforeDay1 | custom_components/garbage_collection/sensor.py:392-406 | on Mondays of the first week, from 29 June 2021 the fallback gives 28 June, a day before day1 |
| Sensor.FirstWeekMondaysStall | custom_components/garbage_collection/sensor.py:460-470 | as the code computes it, every other month from January on Mondays of the first week, from 29 June 2021: the candidate is 28 June, the candidate from the day after is 28 June again, and June is not due, so the loop never ends |
| Sensor.ChainAdvances | custom_components/garbage_collection/sensor.py:466-469 | with the corrected monthly date and a first ordinal of at least 1, each candidate of the period loop is strictly later than the one before |
| Sensor.OneNumberTwoMonthsOn | custom_components/garbage_collection/sensor.py:392-406 | with one ordinal whose dates in day1's month and the next have passed, the corrected date is that ordinal's date in the month after next |
| Sensor.TwoNumbersNextMonth | custom_components/garbage_collection/sensor.py:374-406 | with two ordinals whose dates in day1's month have passed, where the next month's first has passed and its second has not, the code answers the first (before day1) and the corrected date the second |
| Sensor.CorrectedFallback | custom_components/garbage_collection/sensor.py:392-406 | the corrected monthly date of the first week's Monday from 29 June 2021 is 26 July: June's and July's first-week Mondays (31 May, 28 June) have passed |
| Sensor.TwoWeekNumbersCorrected | custom_components/garbage_collection/sensor.py:374-406 | on Mondays of weeks 1 and 3 from 29 June 2021, the code answers 28 June and the corrected date is 12 July, July's third-week Monday |
| Sensor.FirstWeekMondaysCorrected | custom_components/garbage_collection/sensor.py:460-470 | for the schedule that stalls, the corrected candidate from 29 June 2021 is 26 July, in a due month, so the loop ends at once |
| Sensor.MondayPicksItself | custom_components/garbage_collection/sensor.py:433-439 | a Monday-only weekly schedule picks day1 itself when it is a Monday |
| Sensor.FindNextDateCycle | custom_components/garbage_collection/sensor.py:634-661 | weekly on Mondays from March to November with offset -1: the candidate from 1 March 2021 is 1 March, moved to 28 February, which `move_to_range` sends back to 1 March; the code's restart point is 1 March again, so the search repeats |
| Sensor.FindNextDateMovesOn | custom_components/garbage_collection/sensor.py:646-661 | for the same schedule the corrected search goes on from 2 March |

## Left out

- The host-integration parts of the entity are not modelled. These include the set-up functions, `async_added_to_hass`, `async_will_remove_from_hass`, the entity properties, `extra_state_attributes`, `_async_ready_for_update` and `async_update`. They are Home Assistant lifecycle, timers and registry reads. Restoring `last_collection` on start-up is part of this.
- `async_load_holidays` (sensor.py:215-261) is not modelled. It uses the `holidays` library. The holidays it would produce, and whether `asyncio.wait_for` timed out, are inputs of `LoadCollectionDates`.
- `parse_datetime`, `parse_date` (dateutil) and `dates_to_texts` are not modelled. They feed only attributes and events, which are out of scope.
- The group frequency asks other entities through `hass.data`. It is modelled only through the function field `memberNextDate`.
- `strftime` and `verbose_format.format` are modelled only as the function field `verboseText`.
- The `expire_after` text is taken as already parsed (a time of day). Time zones are not modelled: a `Moment` is a local date and time.
- ConfigFlow.Step1: `step1_user_init` converts the include and exclude date texts inside the caller's `user_input` dict (config_flow.py:70-77), so the caller sees the converted lists afterwards. The model takes the input by value and returns the converted dict only through the new record; no code in the flow reads `user_input` again after the step.
- DateText.ParseIso: models `date.fromisoformat` of Python 3.7–3.10, which accepts only `YYYY-MM-DD`. From Python 3.11 it also accepts other ISO 8601 forms, such as `20210504` and `2021-W18-2`; these are not modelled.
- The flow handler classes are modelled only as the frequency → step routing (`NextStep`, `Path`). `async_show_form` and `async_create_entry` are host rendering and persistence.
- voluptuous, `cv.boolean`, `config_definition` and `const` are not re-implemented. They are the parameters of `Definition`. The frequency groups are sets that the model does not fix.
- Logging and exception messages are not modelled; only the exception type is kept.
- Years are unbounded. `OverflowError` outside Python's years 1..9999 is not modelled. Only the ISO text functions restrict themselves to that range.
- When an exception escapes partway through a method, the model may leave a different partial state than Python would. An example is the list `_async_load_collection_dates` has filled so far.
- Sensor.GarbageCollection.WeeksAhead: a `fuel` bound stands for the unbounded `while offset == -1` loop. Running out of fuel is stated (no due week among the weeks tried), but the model does not prove that a due week always exists.
- Sensor.GarbageCollection.PeriodMonth: a `fuel` bound stands for the unbounded period loop. The model uses the corrected monthly date (see "## Findings"), so each turn moves forward (`ChainAdvances`), but the model does not prove that a due month is always reached.
- Sensor.GarbageCollection.FindNextDate: the loop is bounded by `fuel`. The contract does not state that the result is the earliest collectable date, only that it is a collectable (or include) date not before `first_date`. The model restarts each turn at the corrected `NextSearchStart` (see "## Findings"), so the search moves forward, but the model does not prove that it ends.
- Sensor.GarbageCollection.MonthlyWithPeriod, Sensor.GarbageCollection.FindCandidate: with a period other than 0 and 1, the period loop starts from and steps with the corrected candidate `PeriodCandidate` (see "## Findings"). Where the code's first candidate lies before day1 in a due month, the code returns it (and `_async_find_next_date` then drops it as earlier than `first_date`), while the model returns the corrected date instead; where the code's loop never ends, the model's moves on.
- DateText.StrptimeYmd, DateText.StrptimeMd: only ASCII digits are accepted. CPython's `_strptime` patterns use `\d`, which on text matches any Unicode decimal digit (fullwidth digits, for example), and `int()` converts those; the model rejects such text, so `is_date` and `is_month_day` are modelled as false for it.
- Sensor.GarbageCollection.LoadCollectionDates: the loop is bounded by `fuel`. The contract does not state that every collectable date of the window is listed, only that every listed date is in the window and collectable.
- Sensor.EveryNDaysCandidate: for a negative period, only the error cases are stated; the range of the candidate is not.
- Sensor.GarbageCollection.WeeklyCandidate, Sensor.GarbageCollection.WeeklyFrom: a `fuel` bound stands for the later-weeks loop, as for `WeeksAhead`; a found date is stated exactly (`WeeklyPick`).
- Sensor.Derive: the entity is built on the corrected `to_date` (see "## Findings"). With the code as written, a datetime entry stays a datetime in `_first_date` or the date lists, and the code then mixes it with dates: `day1 - self._first_date` (sensor.py:451) raises TypeError, which sensor.py:454-457 turns into ValueError; `date >= day1` (sensor.py:529) raises TypeError; and a datetime exclude date never equals a date, so it excludes nothing. The model computes with the datetime's date instead.

## Findings

| source | as written | input that shows it | evidently intended | confidence | as-written member | corrected member |
|---|---|---|---|---|---|---|
| custom_components/garbage_collection/sensor.py:102-110 | `isinstance(day, date)` is tested before `isinstance(day, datetime)`; `datetime` is a subclass of `date`, so the datetime branch is unreachable and a datetime is returned as it is | `to_date(datetime(2021, 5, 4, 12, 0))` returns the datetime, not `date(2021, 5, 4)` | a datetime converts to its date (the docstring and the `day.date()` branch) | low, not executed | Sensor.ToDateAsWritten, Sensor.MomentPassesUnconverted | Sensor.ToDate |
| custom_components/garbage_collection/sensor.py:392-406 | when no listed date of day1's month is left, the fallback takes the first ordinal's date in the next month without checking it against day1; a first-week date of the next month can lie in day1's month, before day1, and the period loop (sensor.py:466-469) then asks again from the day after that date | week number 1 on Mondays, period 2 from January, day1 29 June 2021: the candidate is 28 June, the next turn gives 28 June again, and June is never due, so the loop never ends | the first listed date, in list order, that is today or later (the comment at sensor.py:379), looked for in day1's month and then in the next month, so the period loop moves on | medium, not executed | Sensor.MonthlyDateAsWritten, Sensor.FirstWeekMondaysStall | Sensor.MonthlyDate, Sensor.PeriodCandidate, Sensor.ChainAdvances |
| custom_components/garbage_collection/sensor.py:646-661 | when `move_to_range` moves a candidate, the search restarts at the moved date even when that is not after day1 | weekly on Mondays from March to November, offset -1, 2021: the candidate 1 March is shifted to 28 February, `move_to_range` gives 1 March, and the search restarts at 1 March for ever | the search continues later ("continue from next year"), so it always moves forward | medium, not executed | Sensor.NextSearchStartAsWritten, Sensor.FindNextDateCycle | Sensor.NextSearchStart |
