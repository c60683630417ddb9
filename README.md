# Nutify core, modelled in Dafny

Nutify is a web monitor for uninterruptible power supplies driven by Network
UPS Tools. A polling thread reads the UPS through `upsc` every few seconds.
The readings go into a sample buffer, which is flushed as one averaged row
per minute into `ups_dynamic_data`, with hourly and daily energy back-fill.
A filter decides which changes are pushed to browsers over the socket.
When `upsmon` reports an event, a notifier script records it in
`ups_events`, keeping at most one open event per UPS. It then hands the
event to three channels: email through msmtp, ntfy, and webhooks.

This project models that core as Dafny modules, one per source file:

- `UpsCache`, `UpsData` and `UpsUtils` cover the sample buffer, the reader
  and real-power derivation.
- `UpsNotifier` covers the event script.
- `Mail`, `Ntfy` and `Webhook` cover the channels.
- The `Orm*` modules cover the configuration tables.
- `Settings` covers the `settings.txt` reader.
- `Integrity` covers the start-up schema check.
- `App` covers the polling thread.
- `Api*` covers the chart APIs' "enough data for the last hour" checks and
  their argument dispatch.

Shared vocabulary lives in a few small modules:

- `Wrappers`: `Option` and `Result`.
- `Dicts`: insertion-ordered dictionaries.
- `Text`: the Python string operations used.
- `Clock`: whole seconds in one zone.
- `Dynamic`: readings and rows.
- `Json`: `to_dict` values.
- `Session`: commit outcomes.
- `Cipher`: an abstract sealed-token cipher.

The inputs from the outside world are parameters of the model rather than
actions it performs:

- the current time;
- the reader's output;
- commit outcomes;
- DNS and HTTP answers;
- SMTP and ntfy responses;
- parsers of dates and JSON.

Objects whose fields the source updates in place are classes with
`modifies` frames:

- the sample cache (`UpsCache.UPSDataCache`);
- the events table (`UpsNotifier.EventTable`);
- the mail-configuration and notification tables;
- the test-send throttle;
- the reader's configuration singleton;
- the polling loop.

Everything else is a function on values.

## Model

| member | source | states |
|---|---|---|
| Json.Masked | nutify/core/db/orm/orm_ups_opt_webhook.py:62-63 | a secret is shown as the eight-asterisk mask exactly when it is set and non-empty, and as "" otherwise |
| Cipher.DecryptEncrypt | nutify/core/db/orm/orm_ups_opt_mail_config.py:55-70 | decrypting what was encrypted under the same key gives back the password |
| Cipher.WrongKeyFails | nutify/core/db/orm/orm_ups_opt_mail_config.py:19-28 | a token sealed under another key does not decrypt |
| OrmEvents.InsertMultiset | nutify/core/events/ups_notifier.py:682 | ordering by insertion keeps exactly the rows, plus the inserted one |
| OrmEvents.InsertSorted | nutify/core/events/ups_notifier.py:682 | inserting into a list ordered by `timestamp_tz DESC` keeps it ordered |
| OrmEvents.ByStampDescSpec | nutify/core/events/ups_notifier.py:682 | `ORDER BY timestamp_tz DESC` yields a sorted permutation of the rows |
| OrmEvents.ByStampDescSorted | nutify/core/events/ups_notifier.py:682 | the ordered rows are in descending timestamp order, null timestamps last |
| OrmEvents.ByStampDescPermutes | nutify/core/events/ups_notifier.py:682 | ordering neither adds, drops nor duplicates a row |
| OrmEvents.Filter | nutify/core/events/ups_notifier.py:679-682 | a row is in the result exactly when it is in the table and meets the filter |
| OrmEvents.Latest | nutify/core/events/ups_notifier.py:666-669 | `.order_by(timestamp_tz.desc()).first()` is empty exactly when no row qualifies, and otherwise a qualifying row no older than any other |
| OrmEvents.UPSEvent.constructor | nutify/core/db/orm/orm_ups_events.py:63-70 | with neither timestamp given both are set to the current time, otherwise they are kept as given; the end is unset and `acknowledged` defaults to false |
| OrmEvents.UPSEvent.ToDict | nutify/core/db/orm/orm_ups_events.py:29-42 | the nine fields in order: id, the three timestamps (null when unset, so `timestamp_end` is null exactly while the event is open), UPS name, event type, message, source IP and the acknowledged flag, each holding its attribute |
| OrmMailConfig.Password | nutify/core/db/orm/orm_ups_opt_mail_config.py:55-61 | `None` exactly when no password is stored; decryption fails only under a different key |
| OrmMailConfig.WithPassword | nutify/core/db/orm/orm_ups_opt_mail_config.py:63-70 | after the setter the getter returns the value set (`None` clears it), and no other column changes |
| OrmMailConfig.FromEmail | nutify/core/db/orm/orm_ups_opt_mail_config.py:72-75 | the sender address is the username |
| OrmMailConfig.FromName | nutify/core/db/orm/orm_ups_opt_mail_config.py:77-82 | the part of the username before its first '@', or the whole username when it has none |
| OrmMailConfig.NewRow | nutify/core/db/orm/orm_ups_opt_mail_config.py:34-46 | a new row is disabled, not default, uses TLS and STARTTLS, and stores no password |
| OrmMailConfig.FirstDefaultIndex | nutify/core/db/orm/orm_ups_opt_mail_config.py:87 | the position of the first row flagged default, none when no row is |
| OrmMailConfig.GetDefault | nutify/core/db/orm/orm_ups_opt_mail_config.py:84-87 | the first row flagged default, else the first row, else nothing |
| OrmMailConfig.MailConfig.constructor | nutify/core/db/orm/orm_ups_opt_mail_config.py:50-53 | a new object holds the column defaults |
| OrmMailConfig.MailConfig.SetPassword | nutify/core/db/orm/orm_ups_opt_mail_config.py:63-70 | the setter updates the object in place; reading back gives the value set |
| OrmNotification.ToDict | nutify/core/db/orm/orm_ups_opt_notification.py:30-40 | six fields carrying the event type and flag; unset timestamps become null |
| OrmNotification.SeededOnePerType | nutify/core/db/orm/orm_ups_opt_notification.py:63-66 | seeding writes one disabled row per event type, in order, with no mail configuration |
| OrmNotification.SeededUnique | nutify/core/db/orm/orm_ups_opt_notification.py:22 | distinct event types give rows with distinct event types, as the unique column requires |
| OrmNotification.DefaultRows | nutify/core/db/orm/orm_ups_opt_notification.py:62-66 | the loop builds exactly the seeded rows |
| OrmNotification.NotificationTable.InitNotificationSettings | nutify/core/db/orm/orm_ups_opt_notification.py:42-96 | rows are created only in an empty table and only when the commit goes through; otherwise the table is unchanged |
| OrmNtfy.NewConfig | nutify/core/db/orm/orm_ups_opt_ntfy.py:17-41 | the column defaults: server https://ntfy.sh, priority 3, no tags, no authentication, every event off |
| OrmNtfy.UnlistedNeverEnabled | nutify/core/db/orm/orm_ups_opt_ntfy.py:70-83 | event types without a column (FSD and the UPS-mode events) are never enabled |
| Json.NotifyFields | nutify/core/db/orm/orm_ups_opt_ntfy.py:56-64 | one `notify_*` entry per event column, in column order, carrying its flag (the webhook table builds its flags the same way, orm_ups_opt_webhook.py:66-82) |
| OrmNtfy.ToDict | nutify/core/db/orm/orm_ups_opt_ntfy.py:44-68 | 21 fields; the password is masked and the event flags agree with `is_event_enabled` |
| OrmReportSchedules.NewSchedule | nutify/core/db/orm/orm_ups_report_schedules.py:23-26 | a new schedule is daily and enabled |
| OrmReportSchedules.FirstIndex | nutify/core/db/orm/orm_ups_report_schedules.py:41 | the position of a token's first occurrence |
| OrmReportSchedules.DedupSpec | nutify/core/db/orm/orm_ups_report_schedules.py:36-42 | the kept reports are exactly the non-empty tokens, without repeats, in order of first occurrence |
| OrmReportSchedules.Reports | nutify/core/db/orm/orm_ups_report_schedules.py:36-42 | the de-duplication loop computes that list; an empty column gives none |
| OrmReportSchedules.DigitTokens | nutify/core/db/orm/orm_ups_report_schedules.py:47 | only digit tokens are kept, as non-negative day numbers |
| OrmReportSchedules.StarHasNoDays | nutify/core/db/orm/orm_ups_report_schedules.py:19 | "*" (every day) has no day number, so `days` comes out empty |
| OrmReportSchedules.SingleDayReadsBack | nutify/core/db/orm/orm_ups_report_schedules.py:47 | a single day number reads back as itself |
| OrmReportSchedules.ToDict | nutify/core/db/orm/orm_ups_report_schedules.py:44-57 | twelve fields; unset dates become null |
| OrmVariableConfig.ColumnDefaults | nutify/core/db/orm/orm_ups_opt_variable_config.py:22-26 | the column defaults, with a polling interval of 1 second |
| OrmVariableConfig.SeededIsColumnDefaults | nutify/core/db/orm/orm_ups_opt_variable_config.py:52-58 | the row `init_default_config` writes holds exactly the column defaults |
| OrmVariableConfig.VariableConfigTable.InitDefaultConfig | nutify/core/db/orm/orm_ups_opt_variable_config.py:32-88 | the default row is added only to an empty table and only when the commit goes through |
| OrmWebhook.NewConfig | nutify/core/db/orm/orm_ups_opt_webhook.py:17-47 | the column defaults: no authentication, JSON content, UPS data included, SSL verified, every event off |
| OrmWebhook.FsdAndTestNeverEnabled | nutify/core/db/orm/orm_ups_opt_webhook.py:90-111 | FSD and the test event have no column and are never enabled |
| OrmWebhook.ToDict | nutify/core/db/orm/orm_ups_opt_webhook.py:54-88 | 31 fields; the password and token are masked, unset timestamps become null |
| OrmWebhook.ToDictFlags | nutify/core/db/orm/orm_ups_opt_webhook.py:66-82 | the 17 `notify_*` entries of `to_dict` agree with `is_event_enabled`, in column order |
| UpsUtils.UPSConfig.constructor | nutify/core/db/ups/utils.py:22-30 | the singleton starts with every field unset and not initialised |
| UpsUtils.UPSConfig.Configure | nutify/core/db/ups/utils.py:32-44 | stores the four fields; the result and the initialised flag hold exactly when host, name and command are all truthy, whatever the timeout |
| UpsUtils.GetSupportedValue | nutify/core/db/ups/utils.py:102-120 | the attribute unless it is missing or '', in which case the default |
| UpsUtils.FirstOf | nutify/core/db/ups/utils.py:148-171 | the value of the first key in lookup order that is present, none when no key is |
| UpsUtils.DerivedRealpower | nutify/core/db/ups/utils.py:147-177 | a derived power, when there is one, is positive |
| UpsUtils.CalculateRealpower | nutify/core/db/ups/utils.py:122-188 | only the two real-power keys can change; without a derived power nothing changes; with one both keys hold its text |
| UpsUtils.DerivedRealpowerReadsBack | nutify/core/db/ups/utils.py:176-181 | with `cents` the hundredths of `round(p, 2)`, the text stored under `ups_realpower` is the text of `cents / 100` and parses back to exactly that number |
| UpsUtils.ReportedRealpowerKept | nutify/core/db/ups/utils.py:147-154 | an existing non-zero 'ups.realpower' leaves the dictionary unchanged |
| UpsUtils.LoadShare | nutify/core/db/ups/utils.py:176-177 | the derived real power is positive and, while the load is at most 100 %, never exceeds the nominal power |
| UpsData.ParseLine | nutify/core/db/ups/data.py:96-99 | a line is kept exactly when it holds a ':' |
| UpsData.ParseLinesLastWins | nutify/core/db/ups/data.py:96-99 | a repeated key ends with the value of its last line |
| UpsData.ParseOutput | nutify/core/db/ups/data.py:40-44 | the parsing loop builds exactly the parsed dictionary |
| UpsData.Convert | nutify/core/db/ups/data.py:111-116 | a value becomes a number exactly when it parses as one, and that number; otherwise it stays text |
| UpsData.TransformedLastWins | nutify/core/db/ups/data.py:104-116 | each database key holds the converted value of the last raw key that maps to it, and has no '.' |
| UpsData.Transform | nutify/core/db/ups/data.py:106-116 | the transform loop builds exactly that dictionary |
| UpsData.ReadOutcome | nutify/core/db/ups/data.py:62-126 | without name or host the fixed placeholder; a non-zero exit is an error; every error carries the data-error prefix |
| UpsData.GetUpsData | nutify/core/db/ups/data.py:52-126 | the command defaults to '/usr/bin/upsc' in place and no other configuration field changes; the result is the outcome above |
| UpsData.ReadKeysUnderscored | nutify/core/db/ups/data.py:104-110 | every key of a successful reading is free of '.' |
| UpsData.PlaceholderDotFree | nutify/core/db/ups/data.py:76-82 | the placeholder's keys are free of '.' |
| UpsData.GetAvailableVariables | nutify/core/db/ups/data.py:15-50 | refused before configuration; otherwise the reader's failure or the parsed listing |
| UpsData.DailyRecord | nutify/core/db/ups/data.py:186-213 | a record exists exactly when yesterday has hourly rows, and it is stamped at yesterday's midnight |
| UpsData.CalculateDailyPower | nutify/core/db/ups/data.py:178-221 | the table gains that record when it exists and the commit goes through, and is unchanged otherwise |
| UpsData.DailyWithinHourlyRange | nutify/core/db/ups/data.py:207-212 | the daily average lies within the range of the hourly values, up to the rounding |
| UpsData.HourlyRows | nutify/core/db/ups/data.py:223-245 | exactly the rows of the hour the input falls in |
| UpsCache.GetNextMinute | nutify/core/db/ups/cache.py:219-239 | a time on a whole minute, strictly after the input and at most a minute later |
| UpsCache.GetNextHour | nutify/core/db/ups/cache.py:55-68 | a time on a whole hour, strictly after the input and at most an hour later |
| UpsCache.FormattedLastWins | nutify/core/db/ups/cache.py:255-262 | each stored key has no '.', and colliding keys end with the last value |
| UpsCache.FormatKeys | nutify/core/db/ups/cache.py:255-262 | the key-rewriting loop builds exactly that dictionary |
| UpsCache.CalculateAverages | nutify/core/db/ups/cache.py:310-360 | nothing for an empty buffer; otherwise only columns of the buffered samples |
| UpsCache.SingleSampleAverages | nutify/core/db/ups/cache.py:320-350 | a single sample averages to itself: numbers rounded to 2 decimals, text kept |
| UpsCache.AverageWithinRange | nutify/core/db/ups/cache.py:335-345 | the average of a numeric column lies within the range of its values, up to the rounding |
| UpsCache.SignificantChange | nutify/core/db/ups/cache.py:470-483 | the metric loop, stopping at the first change, answers metric by metric in list order |
| UpsCache.ChangedAmongMeaning | nutify/core/db/ups/cache.py:470-483 | the loop reports a change exactly when some metric of the list is in both payloads and moved by at least 1 or cannot be compared |
| UpsCache.SteadyReadingsSuppressed | nutify/core/db/ups/cache.py:464-488 | with the same status and the same readable important metrics, nothing is broadcast |
| UpsCache.UnreadableMetricBroadcasts | nutify/core/db/ups/cache.py:480-483 | an important metric that cannot be read as a number forces a broadcast |
| UpsCache.PreviousDayMean | nutify/core/db/ups/cache.py:400-415 | a mean exists exactly when yesterday has `ups_realpower_hrs` values |
| UpsCache.DailyAggregate | nutify/core/db/ups/cache.py:393-435 | a record at yesterday's midnight exactly when that mean exists and is non-zero, holding the mean rounded to 2 decimals |
| UpsCache.Record | nutify/core/db/ups/cache.py:116-140 | the saved row carries the save time and exactly the averaged keys that are table columns, each holding its average |
| UpsCache.AddSchedulesOnce | nutify/core/db/ups/cache.py:241-280 | `add` appends exactly one formatted sample, sets the next save time only when it is unset, and keeps the state valid |
| UpsCache.BroadcastRules | nutify/core/db/ups/cache.py:446-498 | empty data changes nothing; the first broadcast is always recorded; otherwise the last broadcast either becomes the new payload or stays |
| UpsCache.NotDueKeepsBuffer | nutify/core/db/ups/cache.py:100-107 | before the save time only the next hour is initialised; nothing is written |
| UpsCache.SavedFlushRecord | nutify/core/db/ups/cache.py:109-160 | a save appends one row stamped at the save time whose columns, apart from `ups_realpower_hrs`, are exactly the averaged table columns with their averages; it empties the buffer and moves the save time to the next minute |
| UpsCache.FailedCommitKeepsBuffer | nutify/core/db/ups/cache.py:199-217 | a failed commit writes nothing and keeps the buffer and the save time |
| UpsCache.DailyOncePerDate | nutify/core/db/ups/cache.py:371-391 | on a date already aggregated no daily record is added |
| UpsCache.HourlyAverageOnlyAfterHour | nutify/core/db/ups/cache.py:161-195 | before the next hour the row is exactly the averaged record (no hourly value unless the buffered samples carried one), the power joins the hour's list and the next hour does not move |
| UpsCache.HourlyAverageAfterHour | nutify/core/db/ups/cache.py:161-193 | once the hour is over, a save with a power average stores `ups_realpower_hrs` as the rounded mean of the powers stored for that hour (the row is the averaged record otherwise), empties the hour's list and moves the next hour past now |
| UpsCache.PowerlessFlushSkipsHourly | nutify/core/db/ups/cache.py:160-165 | a save without a power average leaves the hour's list and the next hour alone and writes exactly the averaged record |
| UpsCache.HourlyOfSave | nutify/core/db/ups/cache.py:160-201 | the row a save writes and the hourly state it leaves are those of the hourly step |
| UpsCache.WithHour | nutify/core/db/ups/cache.py:101-103 | a flush starts with `next_hour` set, the buffer and the save time untouched, and the state still valid |
| UpsCache.HourlyStepAfterHour | nutify/core/db/ups/cache.py:167-192 | past the hour, the hourly step stores the rounded mean of the hour's stored powers when there are any, empties the hour's list and moves to the next hour |
| UpsCache.HourlyStepBeforeHour | nutify/core/db/ups/cache.py:160-195 | before the hour, or without a power average, the hourly step leaves the row and the next hour alone and only records the minute's power |
| UpsCache.HourlyStepKeepsFields | nutify/core/db/ups/cache.py:178-182 | the hourly step changes no column but `ups_realpower_hrs` |
| UpsCache.BufferSize | nutify/core/db/ups/cache.py:545-550 | 5 when the cache window holds fewer than 5 polling intervals, otherwise the number of whole polling intervals in it |
| UpsCache.SaveUpsDataOutcome | nutify/core/db/ups/cache.py:511-577 | a failed reading reports an error and writes nothing; a good reading reports success; without a configured interval the size is kept |
| UpsCache.UPSDataCache.constructor | nutify/core/db/ups/cache.py:37-53 | a new cache is empty, with nothing scheduled or broadcast |
| UpsCache.UPSDataCache.GetLatestCacheData | nutify/core/db/ups/cache.py:500-509 | the last payload broadcast |
| UpsCache.UPSDataCache.BroadcastCacheUpdate | nutify/core/db/ups/cache.py:446-498 | updates the cache as the broadcast rules say |
| UpsCache.UPSDataCache.Add | nutify/core/db/ups/cache.py:241-280 | updates the cache as `add` says |
| UpsCache.UPSDataCache.ShouldAggregateDaily | nutify/core/db/ups/cache.py:371-391 | due exactly at local midnight of a date not yet aggregated, and then records that date |
| UpsCache.UPSDataCache.AggregateDailyData | nutify/core/db/ups/cache.py:393-435 | the table gains the daily record when there is one and the commit goes through |
| UpsCache.UPSDataCache.CalculateAndSaveAverages | nutify/core/db/ups/cache.py:86-217 | the cache and the table end as the save step says; what that step writes is stated by SavedFlushRecord, HourlyAverageOnlyAfterHour, HourlyAverageAfterHour, PowerlessFlushSkipsHourly, FailedCommitKeepsBuffer and DailyOncePerDate |
| UpsCache.UPSDataCache.UpdateHourly | nutify/core/db/ups/cache.py:161-193 | the hourly part of the save step, whose effect on the saved row and the hourly state HourlyAverageAfterHour and HourlyAverageOnlyAfterHour state |
| UpsCache.UPSDataCache.Commit | nutify/core/db/ups/cache.py:198-213 | a committed save empties the buffer, schedules the next minute, appends the row and runs the daily aggregation when due |
| UpsCache.SaveUpsData | nutify/core/db/ups/cache.py:511-577 | a polling interval above 1 resizes the buffer first; a failed read returns (False, "Error saving data: …") and adds nothing; a good read adds the sample, runs the averaging step and returns (True, None) whatever the averaging did; the new cache and table are exactly those of that sequence |
| UpsNotifier.SpaceRun | nutify/core/events/ups_notifier.py:176 | the run of whitespace that `\s+` consumes: every character in it is whitespace and the one after it is not |
| UpsNotifier.WordRun | nutify/core/events/ups_notifier.py:176 | the run that `([^\s]+)` consumes: no character in it is whitespace and the one after it is |
| UpsNotifier.GroupLength | nutify/core/events/ups_notifier.py:176 | the greedy group backs off to the longest length after which the phrase still follows; no longer length lets the phrase match |
| UpsNotifier.MatchName | nutify/core/events/ups_notifier.py:176-179 | on a match the text starts with "UPS" and whitespace, and the UPS name is a non-empty, space-free slice right after it |
| UpsNotifier.FirstPattern | nutify/core/events/ups_notifier.py:171-256 | a name is found exactly when an event type is, and the type is one of the listed patterns' types |
| UpsNotifier.ParseInputArgs | nutify/core/events/ups_notifier.py:154-262 | the name and the event type are found together or not at all |
| UpsNotifier.ParseInputArgsForms | nutify/core/events/ups_notifier.py:166-262 | no arguments gives nothing; two or more give the first two; one that does not start with "UPS " gives nothing; a free-text match gives one of the ten event types |
| UpsNotifier.FirstMatchWins | nutify/core/events/ups_notifier.py:171-256 | the first pattern, in source order, that matches decides the name and the type |
| UpsNotifier.FirstMatchFrom | nutify/core/events/ups_notifier.py:171-256 | the search from any pattern on returns the first later pattern that matches |
| UpsNotifier.NoMatchGivesNothing | nutify/core/events/ups_notifier.py:254-256 | text that no pattern matches gives no name and no type |
| UpsNotifier.OnBatteryTakesPrecedence | nutify/core/events/ups_notifier.py:176-180 | text matching "on battery" is ONBATT whatever later pattern it also matches |
| UpsNotifier.ViewsOf | nutify/core/events/ups_notifier.py:469-499 | the table's stored columns, one per row in table order |
| UpsNotifier.ViewsOfSnoc | nutify/core/events/ups_notifier.py:528-529 | adding a row adds its columns at the end |
| UpsNotifier.CloseOpen | nutify/core/events/ups_notifier.py:479-488 | each row is closed at the given time if it is an open event of that UPS, and is otherwise unchanged |
| UpsNotifier.CloseOpenCounts | nutify/core/events/ups_notifier.py:479-488 | after closing, the UPS has no open event and every other UPS keeps its open events |
| UpsNotifier.NewEvent | nutify/core/events/ups_notifier.py:518-526 | the new row starts and is stamped at `now`, is open and is not acknowledged |
| UpsNotifier.OpenCountSnoc | nutify/core/events/ups_notifier.py:528-529 | appending a row adds one open event exactly when that row is open for the UPS |
| UpsNotifier.StoredLeavesOneOpen | nutify/core/events/ups_notifier.py:501-536 | when both commits succeed the UPS has exactly one open event and other UPSes are untouched |
| UpsNotifier.AtMostOneOpenKept | nutify/core/events/ups_notifier.py:501-536 | if every UPS had at most one open event before a store whose close committed, that still holds after it |
| UpsNotifier.CloseIfOpen | nutify/core/events/ups_notifier.py:485-487 | one loop step: reports whether the event was open for the UPS and ends it at `now` when the change is kept |
| UpsNotifier.EventTable.CloseEach | nutify/core/events/ups_notifier.py:485-487 | every row is closed or left as it was, and the count is the number of open events of the UPS |
| UpsNotifier.EventTable.ClosePreviousEvents | nutify/core/events/ups_notifier.py:469-499 | on a successful commit the open events of the UPS are closed and counted; on a failure nothing changes and 0 is returned |
| UpsNotifier.EventTable.StoreEventInDatabase | nutify/core/events/ups_notifier.py:501-540 | the store succeeds exactly when the insert commits, and the table becomes the closed table plus the new open row |
| UpsNotifier.NewEventRow | nutify/core/events/ups_notifier.py:521-530 | the new row is a fresh object, open, started and stamped now, with the message "UPS <name> event: <type>" and not acknowledged |
| UpsNotifier.EventTable.AddEvent | nutify/core/events/ups_notifier.py:521-532 | the new open row goes at the end of the table and the table stays free of duplicate rows |
| UpsNotifier.EventTable.Append | nutify/core/events/ups_notifier.py:528 | the new row goes at the end and nothing else changes |
| UpsNotifier.FirstRecentIndex | nutify/core/events/ups_notifier.py:685-694 | the first closed ONBATT event that ended within the hour, and no earlier one did |
| UpsNotifier.FirstRecent | nutify/core/events/ups_notifier.py:685-694 | the duration in whole minutes of the first event that ended within the hour; none when no event did |
| UpsNotifier.OnlineFromOpenEvent | nutify/core/events/ups_notifier.py:662-675 | with an open ONBATT event, the ONLINE duration runs from the latest open event's start |
| UpsNotifier.NoOpenOfKindAfterStore | nutify/core/events/ups_notifier.py:501-536 | after storing an event no event of another type is open for that UPS |
| UpsNotifier.OnlineAfterStoreUsesClosed | nutify/core/events/ups_notifier.py:660-707 | since the event is stored first, the ONLINE duration always comes from the closed-event path |
| UpsNotifier.CommOkDurationNeverFound | nutify/core/events/ups_notifier.py:712-725 | as written, the COMMOK duration lookup for an open COMMBAD event never finds one once COMMOK is stored |
| UpsNotifier.CommOkStoreRows | nutify/core/events/ups_notifier.py:501-536 | storing COMMOK adds one row; each earlier row is a COMMBAD event closed at `now` exactly when it was an open COMMBAD event, with its start kept |
| UpsNotifier.CommOutageFound | nutify/core/events/ups_notifier.py:712-725 | if a COMMBAD event was open before the store, the corrected lookup finds a COMMBAD event closed at `now` |
| UpsNotifier.MutuallyLatest | nutify/core/events/ups_notifier.py:715-719 | two latest-first picks over the same start times agree on the start |
| UpsNotifier.CommOutageSameStart | nutify/core/events/ups_notifier.py:715-719 | the COMMBAD event the corrected lookup picks has the start of the latest COMMBAD event that was open |
| UpsNotifier.CommOutageMatchesOpenEvent | nutify/core/events/ups_notifier.py:712-725 | the corrected duration, read after the store, equals what the lookup would have found before it |
| UpsNotifier.EmailJobsSpec | nutify/core/events/ups_notifier.py:263-296 | a mail configuration id is a job exactly when some enabled row of the upper-cased type carries it |
| UpsNotifier.AtMostOneEmailJob | nutify/core/events/ups_notifier.py:273-276 | with one settings row per event type there is at most one job, for that type's row |
| UpsNotifier.GetEnabledNotifications | nutify/core/events/ups_notifier.py:263-296 | the loop collects the jobs of the rows in order; a failed query gives none |
| UpsNotifier.NtfyColumn | nutify/core/events/ups_notifier.py:764 | the listed type whose `notify_` column the lowered type names, or none when no listed type lowers to it |
| UpsNotifier.ConfigsWith | nutify/core/events/ups_notifier.py:767-770 | exactly the configurations whose column is set |
| UpsNotifier.EnabledNtfyConfigs | nutify/core/events/ups_notifier.py:748-781 | a configuration is selected exactly when ntfy is available, the query succeeds, the type has a column and the configuration sets it |
| UpsNotifier.EventsAreUpperWords | nutify/core/db/orm/orm_ups_opt_ntfy.py:70-83 | every type with an ntfy column is an upper-case word |
| UpsNotifier.LowerUpperWord | nutify/core/events/ups_notifier.py:764 | lower-casing loses nothing on upper-case words |
| UpsNotifier.EnabledNtfyConfigsListed | nutify/core/events/ups_notifier.py:748-781 | for a listed type the selection agrees with the model's `is_event_enabled` |
| UpsNotifier.NtfyColumnListed | nutify/core/events/ups_notifier.py:764 | a listed type names its own column |
| UpsNotifier.EmailDispatches | nutify/core/events/ups_notifier.py:1423-1425 | one email per job, in order |
| UpsNotifier.NtfyDispatches | nutify/core/events/ups_notifier.py:1428-1430 | one ntfy message per configuration, in order |
| UpsNotifier.DispatchRules | nutify/core/events/ups_notifier.py:1411-1442 | email goes out exactly for the jobs when mail is configured, ntfy exactly for the selected configurations when ntfy is available, the webhook exactly when it is available |
| UpsNotifier.ProcessUpsEvent | nutify/core/events/ups_notifier.py:1397-1447 | the event is stored first; a failed store sends nothing and reports failure; otherwise it reports success and sends what the dispatch rules say |
| UpsNotifier.NotifyChannels | nutify/core/events/ups_notifier.py:1405-1445 | once the event is stored, it sends exactly the dispatches that the enabled email jobs, the email configuration check, the enabled ntfy configurations and the webhook flag call for, in that order |
| UpsNotifier.SendEmails | nutify/core/events/ups_notifier.py:1423-1425 | the loop sends the email dispatches of the jobs |
| UpsNotifier.SendNtfys | nutify/core/events/ups_notifier.py:1429-1430 | the loop sends the ntfy dispatches of the configurations |
| UpsNotifier.WithSuffix | nutify/core/events/ups_notifier.py:606-618 | the result ends with the suffix; text that already ends with it is unchanged, otherwise the suffix is appended |
| UpsNotifier.WithMinutes | nutify/core/events/ups_notifier.py:620-633 | the result ends with "min": " min" is appended unless the text already ends with "min" |
| UpsNotifier.SuffixesIdempotent | nutify/core/events/ups_notifier.py:606-633 | normalising a unit twice gives what normalising once gives |
| UpsNotifier.FirstSet | nutify/core/events/ups_notifier.py:645 | the result is the default or the value of one of the two keys |
| UpsNotifier.MinutesText | nutify/core/events/ups_notifier.py:674 | a minute count is shown ending in "min" |
| UpsNotifier.EmailReadingsFor | nutify/core/events/ups_notifier.py:604-725 | the charge ends in "%", the voltages in "V", the durations in "min"; ONLINE and COMMOK use the computed minutes when there are any, else the stored value |
| UpsNotifier.NtfyTitle | nutify/core/events/ups_notifier.py:946-960 | every title ends with " - " and the UPS name |
| UpsNotifier.PriorityLevels | nutify/core/events/ups_notifier.py:992-1006 | LOWBATT, SHUTDOWN, FSD are 5; ONBATT, COMMBAD, NOCOMM 4; REPLBATT, NOPARENT, ONLINE 3; COMMOK 2; other types use the configured priority |
| UpsNotifier.NtfyAuthSendsMask | nutify/core/events/ups_notifier.py:1013-1035 | as written, whenever basic auth is sent its password is the mask from `to_dict` |
| UpsNotifier.NtfyAuthAsWritten | nutify/core/events/ups_notifier.py:1013-1035 | as written, auth is sent exactly when enabled with a non-empty username and password, and carries the username with the "********" mask that `to_dict` puts in place of the password (nutify/core/db/orm/orm_ups_opt_ntfy.py:53) |
| UpsNotifier.NtfyAuth | nutify/core/events/ups_notifier.py:1033-1035 | corrected, see ## Findings: auth is sent exactly when enabled with a non-empty username and password, and carries the stored password |
| UpsNotifier.NtfyEventRequest | nutify/core/events/ups_notifier.py:1008-1052 | posted to server/topic with the title and priority; Click only for a local server; Tags exactly when enabled and non-empty; Actions exactly for the five listed types; auth is `NtfyAuthAsWritten`, so any password sent is the mask |
| UpsNotifier.NtfyEventRequestCorrected | nutify/core/events/ups_notifier.py:1008-1052 | corrected, see ## Findings: the same URL and headers, auth sent in the same cases, with the stored password in place of the mask |
| UpsNotifier.ChargeMinutes | nutify/core/events/ups_notifier.py:1296-1306 | a charge estimate is only ever a positive number of minutes |
| UpsNotifier.UptimeMinutes | nutify/core/events/ups_notifier.py:1309-1313 | an uptime estimate is only used when it is between 1 and 59 minutes |
| UpsNotifier.DetailReadingsFor | nutify/core/events/ups_notifier.py:1251-1314 | the charge ends in "%", input and battery voltages in "V"; output and nominal voltages are "0" or end in "V"; the load is empty or ends in "%" |
| UpsNotifier.ChargeMinutesZero | nutify/core/events/ups_notifier.py:1296-1303 | a 0% charge gives no runtime estimate |
| UpsNotifier.NatMinutesNotZero | nutify/core/events/ups_notifier.py:1305 | a positive minute count is never shown as "0 min" |
| UpsNotifier.DetailFallbacks | nutify/core/events/ups_notifier.py:1294-1314 | the estimate is replaced only when it reads "0 min", and then whenever the charge gives minutes; the duration stays "0 min" only without a usable uptime |
| UpsNotifier.DeviceSection | nutify/core/events/ups_notifier.py:1319-1337 | the device section has its heading and 3 to 6 lines |
| UpsNotifier.PowerSection | nutify/core/events/ups_notifier.py:1339-1352 | the power section has its heading, the status line and at most three more lines |
| UpsNotifier.Temperature | nutify/core/events/ups_notifier.py:1369-1373 | the temperature is shown exactly when present and not "0", and ends in degrees Celsius |
| UpsNotifier.BatterySection | nutify/core/events/ups_notifier.py:1354-1378 | the battery section has its heading, the charge line and at most five more lines |
| UpsNotifier.EventSection | nutify/core/events/ups_notifier.py:1380-1387 | the event section is present exactly when both the date and the time are set |
| UpsNotifier.LastUpdateSection | nutify/core/events/ups_notifier.py:1389-1390 | one line starting with the last-update label |
| UpsNotifier.DetailSectionsAsWritten | nutify/core/events/ups_notifier.py:1316-1395 | as written, the device and battery sections, then the event section exactly when date and time are set, then the last update: three or four sections, none of them the power section |
| UpsNotifier.DetailSections | nutify/core/events/ups_notifier.py:1316-1390 | corrected, see ## Findings: device, power and battery sections in that order, the event section exactly when date and time are set, and the last update at the end |
| UpsNotifier.PowerSectionDropped | nutify/core/events/ups_notifier.py:1337-1390 | as written, the report is the intended one without its power section, and no section it keeps is the power section |
| UpsNotifier.SectionTexts | nutify/core/events/ups_notifier.py:1392 | each section is its lines joined by line breaks, one text per section |
| UpsNotifier.RenderStartsWith | nutify/core/events/ups_notifier.py:1392 | a report starts with the first line of its first section |
| UpsNotifier.RenderCons | nutify/core/events/ups_notifier.py:1392 | a report is its first section's text, a blank line, and the report of the remaining sections |
| UpsNotifier.FormatUpsDetails | nutify/core/events/ups_notifier.py:1239-1395 | the report is the as-written sections, each joined by line breaks and separated by blank lines, so it has no power block; it starts with the device section heading |
| UpsNotifier.FormatUpsDetailsCorrected | nutify/core/events/ups_notifier.py:1239-1395 | corrected, see ## Findings: the same rendering of the intended sections, starting with the device section heading |
| UpsNotifier.RenderWithoutSecond | nutify/core/events/ups_notifier.py:1392 | dropping the second of three or more sections removes exactly its text and one blank line from the report |
| UpsNotifier.PowerBlockMissing | nutify/core/events/ups_notifier.py:1337-1395 | the written report is the device text followed by the rest; the intended one has the power block between them |
| Mail.AccountLines | nutify/core/mail/mail.py:108-116 | the account block is eight lines |
| Mail.MsmtpLines | nutify/core/mail/mail.py:74-134 | the configuration fails with the password-required error exactly when the password is missing |
| Mail.GetMsmtpConfig | nutify/core/mail/mail.py:74-134 | fails exactly when the password is missing; otherwise it is the configuration's lines joined by newlines |
| Mail.AccountLinesNoStarttls | nutify/core/mail/mail.py:108-116 | the account block holds no `tls` line |
| Mail.HeadLinesNoTls | nutify/core/mail/mail.py:92-96 | the header block holds no `tls` line |
| Mail.TlsLinesCount | nutify/core/mail/mail.py:97-106 | with TLS on there are two `tls` lines, with TLS off one; neither is a `tls_starttls` line |
| Mail.StarttlsLinesCount | nutify/core/mail/mail.py:118-131 | one `tls_starttls` line with TLS on and none with TLS off |
| Mail.MsmtpBlocks | nutify/core/mail/mail.py:91-131 | the configuration is the header, the TLS block, the account block and the STARTTLS block, in that order |
| Mail.MsmtpTlsCounts | nutify/core/mail/mail.py:97-131 | exactly one `tls_starttls` line when TLS is on (tls defaults to on) and none when it is off |
| Mail.MsmtpTlsLines | nutify/core/mail/mail.py:88-131 | 16 lines with TLS on and 13 with it off; "tls on/off" at line 5, the trust file after it, the STARTTLS switch last, and `from` defaulting to the username |
| Mail.CountStartingWeaker | nutify/core/mail/mail.py:118-131 | lines starting with a longer prefix are no more than lines starting with a shorter one |
| Mail.AcceptedCalls | nutify/core/mail/mail.py:898-906 | the accepted calls are some of the calls |
| Mail.AcceptedCallsSpaced | nutify/core/mail/mail.py:45-46 | every accepted test call comes at least 2 s after the previously accepted one |
| Mail.Ids | nutify/core/mail/mail.py:358-359 | the ids of the rows, in order |
| Mail.IdBound | nutify/core/mail/mail.py:362-364 | a number above every existing id |
| Mail.FirstFree | nutify/core/mail/mail.py:361-366 | the first unused id from the start value on: unused, and every id before it is used |
| Mail.IndexOfId | nutify/core/mail/mail.py:347-348 | the position of the row with that id, or none exactly when no row has it |
| Mail.ApplyFields | nutify/core/mail/mail.py:389-408 | updating fields never changes the row's id or default flag |
| Mail.CopyFields | nutify/core/mail/mail.py:389-408 | copying the non-password fields keeps the id, the default flag and the stored password |
| Mail.Save | nutify/core/mail/mail.py:314-428 | a failed save leaves the table as it was |
| Mail.SaveAllocatesFirstFreeId | nutify/core/mail/mail.py:356-369 | without an id, a new row is appended with the smallest positive unused id and the earlier rows are kept |
| Mail.EnabledOnlyChangesEnabled | nutify/core/mail/mail.py:372-377 | an enabled-only update of an existing row changes only its enabled flag |
| Mail.EnabledOnlyOnNewRowFails | nutify/core/mail/mail.py:349-377 | an enabled-only update that creates a row fails on the NOT NULL columns and leaves the table unchanged |
| Mail.EmptyPasswordKeepsStored | nutify/core/mail/mail.py:379-401 | an empty or missing password keeps the stored one |
| Mail.NewPasswordReadsBack | nutify/core/mail/mail.py:396-399 | a new password is stored encrypted and decrypts back to itself |
| Mail.UndecryptableStops | nutify/core/mail/mail.py:379-384 | without a new password, a stored password the key cannot decrypt stops the save with its own message and changes nothing |
| Mail.NonIntegerPortFails | nutify/core/mail/mail.py:402-406 | a port that is not an integer becomes null, so the save fails |
| Mail.SaveKeepsRowsValid | nutify/core/mail/mail.py:314-428 | saving keeps the ids unique and positive |
| Mail.MailTable.SaveMailConfig | nutify/core/mail/mail.py:314-428 | the method's result and new rows are those of the save function |
| Mail.MailTable.CommitRow | nutify/core/mail/mail.py:420-428 | the commit step's result and new rows are those of the commit function |
| Mail.SendEmail | nutify/core/mail/mail.py:430-523 | no recipient fails first; a list holding an absent address fails with the join error naming its first position; success exactly when every address is present, there is a password and msmtp exits 0; the failure messages for a missing password and a non-zero exit |
| Mail.FirstAbsent | nutify/core/mail/mail.py:450 | the first position of an absent address, or none exactly when every address is present |
| Mail.TemplateTypesAreKeys | nutify/core/mail/mail.py:526-536 | the nine template types are the keys of the template map |
| Mail.ForcedShutdownHasNoTemplate | nutify/core/mail/mail.py:526-536 | FSD has no template |
| Mail.TemplateFor | nutify/core/mail/mail.py:717-720 | a template exists exactly for the nine listed types |
| Mail.SettingFor | nutify/core/mail/mail.py:661 | the first settings row of the type, or none exactly when there is no such row |
| Mail.ById | nutify/core/mail/mail.py:684 | the configuration with that id, or none exactly when there is none |
| Mail.ResolveMailConfig | nutify/core/mail/mail.py:677-702 | the test id when it names a configuration, else the settings row's id when it names one, else the default configuration |
| Mail.Recipient | nutify/core/mail/mail.py:768-775 | the event's recipient if set, else the configuration's, else the username |
| Mail.SmtpFor | nutify/core/mail/mail.py:738-765 | the stored password is used; outside a test with its own settings, the sender is the username and TLS is the configuration's |
| Mail.ChosenConfig | nutify/core/mail/mail.py:661-707 | a configuration is chosen only when the type has a settings row, and always when it has one and some configuration exists |
| Mail.SendNotification | nutify/core/mail/mail.py:639-791 | nothing delivered means failure; a delivery uses the chosen configuration |
| Mail.NotifyWith | nutify/core/mail/mail.py:705-786 | delivered exactly when the configuration is enabled (or it is a test), the type has a template, rendering works and the password decrypts |
| Mail.RenderAndSend | nutify/core/mail/mail.py:722-791 | delivered exactly when rendering works and the password decrypts; a failed rendering names the template, and an undecryptable password fails with the empty text of `InvalidToken` |
| Mail.Deliver | nutify/core/mail/mail.py:768-786 | sent to the one resolved recipient with subject "UPS Event: " and the type; the outcome is that of `send_email`, which fails with the join error when no recipient is known |
| Mail.DeliveryConditions | nutify/core/mail/mail.py:639-791 | delivered exactly when a settings row exists and is enabled or it is a test, a configuration exists, the resolved one is enabled or it is a test, the type has a template, rendering works and the password decrypts |
| Mail.DeliveryShape | nutify/core/mail/mail.py:768-786 | a delivery goes to the resolved recipient with the fixed subject and never reports a missing recipient |
| Mail.NeverNoRecipient | nutify/core/mail/mail.py:438-445 | with a recipient, sending never reports a missing one |
| Mail.TestEventData | nutify/core/mail/mail.py:920-1005 | test data is marked as a test and does not carry its own SMTP settings |
| Mail.TestSend | nutify/core/mail/mail.py:992-998 | a test naming an unknown configuration id fails with "Email configuration with ID ... not found" |
| Mail.TestIgnoresEnabledFlags | nutify/core/mail/mail.py:667-707 | a test is delivered even when the settings row and the configuration are disabled |
| Mail.TestThrottle.constructor | nutify/core/mail/mail.py:45 | the last test time starts at 0 |
| Mail.TestThrottle.TestNotification | nutify/core/mail/mail.py:889-1017 | a call within 2 s of the last accepted one is refused and leaves the time alone; otherwise the time is recorded and the test is sent |
| Mail.MinutesTextRoundTrip | nutify/core/mail/mail.py:1114-1116 | a minute count written as "{m} min" reads back as m |
| Mail.FormatMinutesRoundTrip | nutify/core/mail/mail.py:1114-1120 | the minute or hour-and-minute text reads back as the minute count |
| Mail.FormatRuntime | nutify/core/mail/mail.py:1096-1098 | None and "" are "N/A" |
| Mail.FormatRuntimeMeaning | nutify/core/mail/mail.py:1093-1109 | a value that does not convert to a number is "N/A"; one that does is formatted by its number alone |
| Mail.RuntimeTextMeaning | nutify/core/mail/mail.py:1108-1122 | a non-positive number is "N/A"; under a minute is "{s} sec" with the whole seconds; otherwise the text reads back as the whole minutes |
| Mail.PercentTextIsNotANumber | nutify/core/mail/mail.py:1248 | text ending in '%' does not parse as a float |
| Mail.PercentChargeUnavailableAsWritten | nutify/core/mail/mail.py:1247-1252 | as written, every charge given with a '%' estimates "N/A" |
| Mail.EstimateRuntimeFromChargeAsWritten | nutify/core/mail/mail.py:1233-1275 | as written, a value that is missing, empty or not a number estimates "N/A"; a number without '%' gives the charge runtime (a '%' value is `PercentChargeUnavailableAsWritten`) |
| Mail.EstimateRuntimeFromCharge | nutify/core/mail/mail.py:1233-1275 | corrected, see ## Findings: a charge with '%' is read without it; any other number is read as is; both then give the charge runtime |
| Mail.HalfChargeEstimate | nutify/core/mail/mail.py:1247-1261 | "50%" estimates "N/A" as written and "50 min" as intended |
| Mail.EstimateAgreesWithoutPercent | nutify/core/mail/mail.py:1233-1275 | without a '%' the corrected estimate is the written one |
| Mail.BatteryCycle | nutify/core/mail/mail.py:1130-1140 | the latest ONLINE event and the latest ONBATT event that started before it; none when there is no ONLINE event |
| Mail.GetBatteryDuration | nutify/core/mail/mail.py:1127-1153 | "N/A" without a cycle; otherwise the positive gap, as its whole seconds followed by " sec" under a minute and in whole minutes after |
| Mail.InitNotificationSettings | nutify/core/mail/mail.py:857-876 | an empty table gets one disabled row per template type when the commit succeeds; otherwise the table is unchanged |
| Webhook.ParseCustomHeaders | nutify/core/extranotifs/webhook/webhook.py:62-70 | headers are only taken from non-empty text that parses; anything else gives no headers |
| Webhook.EmptySettingsDefaults | nutify/core/extranotifs/webhook/webhook.py:25-60 | with no keys set, the notifier takes the documented defaults (name "Webhook", auth "none", JSON, ups data included, signature header X-Nutify-Signature, sha256, every switch off, a 30-second timeout) |
| Webhook.Auth | nutify/core/extranotifs/webhook/webhook.py:72-76 | basic auth (section 2 of RFC 7617) is sent exactly for the "basic" type, with the configured username and password |
| Webhook.SplitScheme | nutify/core/extranotifs/webhook/webhook.py:124 | a split gives "http" or "https" and the rest of the URL after "://" |
| Webhook.HostLength | nutify/core/extranotifs/webhook/webhook.py:124 | the run `([^:/]+)` consumes: every character is a host character and the next one is not |
| Webhook.DigitRun | nutify/core/extranotifs/webhook/webhook.py:124 | the run `[0-9]+` consumes: every character is a digit and the next one is not |
| Webhook.UrlMatch | nutify/core/extranotifs/webhook/webhook.py:124-131 | a match gives the scheme, http or https, and a non-empty host, and the URL starts with them |
| Webhook.UrlMatchOfParts | nutify/core/extranotifs/webhook/webhook.py:124-131 | a URL built from a lower-case scheme, a host, an optional port and an optional path matches and gives that scheme and host |
| Webhook.ValidateUrl | nutify/core/extranotifs/webhook/webhook.py:115-174 | an empty URL is "No URL configured"; the URL passes exactly when it matches, is https when that is enforced, is not a dotted quad with an octet over 255 (a final line break after the last octet is let through), and is an IPv4 address or skips validation or resolves or connects directly |
| Webhook.NewlineHostIsIpv4 | nutify/core/extranotifs/webhook/webhook.py:145-152 | four single digits joined by dots and followed by a line break are an IPv4 literal |
| Webhook.TrailingNewlineIp | nutify/core/extranotifs/webhook/webhook.py:124-174 | `http://1.2.3.4` followed by a line break matches and passes whatever name resolution answers |
| Webhook.SplitQuad | nutify/core/extranotifs/webhook/webhook.py:149 | four characters joined by dots split back into those four pieces |
| Webhook.SkippedValidationIgnoresDns | nutify/core/extranotifs/webhook/webhook.py:155-157 | with hostname validation skipped, DNS never changes the verdict |
| Webhook.UpperCaseSchemeRejected | nutify/core/extranotifs/webhook/webhook.py:124-128 | the pattern is case-sensitive, so an upper-case scheme is rejected |
| Webhook.SigningHash | nutify/core/extranotifs/webhook/webhook.py:226-231 | SHA-512 exactly for "sha512"; "sha256" and any other name use SHA-256 |
| Webhook.Signature | nutify/core/extranotifs/webhook/webhook.py:208-242 | no signature exactly without a secret; otherwise the HMAC hex digest of the payload under the chosen hash |
| Webhook.OwnHeaders | nutify/core/extranotifs/webhook/webhook.py:186-200 | Content-Type and User-Agent always; Authorization "Bearer <token>" (section 2.1 of RFC 6750) for a bearer token; the signature header when signing |
| Webhook.Headers | nutify/core/extranotifs/webhook/webhook.py:176-206 | every header not named by the custom headers is the notifier's own |
| Webhook.CustomHeadersWin | nutify/core/extranotifs/webhook/webhook.py:202-204 | a custom header overrides the notifier's header of the same name |
| Webhook.SignatureHeaderRule | nutify/core/extranotifs/webhook/webhook.py:194-199 | a payload is signed exactly when signing is on and a secret is set, with the HMAC of the payload text |
| Webhook.UnsubscribableIsUnknown | nutify/core/extranotifs/webhook/webhook.py:272-293 | an event type no webhook can subscribe to is described as "Unknown event: " and the type |
| Webhook.EventFields | nutify/core/extranotifs/webhook/webhook.py:258-263 | the three standard fields are set and every other field of the custom payload is kept |
| Webhook.PreparePayload | nutify/core/extranotifs/webhook/webhook.py:244-270 | the standard fields are set; `ups_data` is the UPS info when it is included and non-empty, else the custom value; other fields are kept |
| Webhook.AddUpsData | nutify/core/extranotifs/webhook/webhook.py:266-268 | only `ups_data` changes, and only when wanted |
| Webhook.Classify | nutify/core/extranotifs/webhook/webhook.py:439-573 | success exactly for an answer below 400; a failure keeps at most the first 200 characters of the body; SSL, DNS, connection and timeout failures get their error types |
| Webhook.ClassifyAdvice | nutify/core/extranotifs/webhook/webhook.py:465-565 | exactly the failures with an error type carry a help text: the SSL one, the DNS one for a name resolution failure, the HTTPS or HTTP one by the lower-cased URL for another connection error, the timeout one naming the configured timeout; only an ignored refused connection carries `original_error`, holding the exception text |
| Webhook.TimeoutHelp | nutify/core/extranotifs/webhook/webhook.py:549-556 | the timeout advice opens by naming the configured `retry_timeout` |
| Webhook.SendNotification | nutify/core/extranotifs/webhook/webhook.py:361-573 | a request is made exactly when validation passes or may be overridden, else a url_validation_error; it posts to the URL with the auth, the headers of the serialised payload and the payload as JSON or text |
| Webhook.DirectConnectionAlwaysPosts | nutify/core/extranotifs/webhook/webhook.py:375-381 | with a direct IP connection the request is always made |
| Webhook.StrictModePostsOnlyValidUrls | nutify/core/extranotifs/webhook/webhook.py:375-381 | without the overrides, a request is made exactly when the URL validates |
| Webhook.TestEventType | nutify/core/extranotifs/webhook/webhook.py:593 | the given event type, or TEST when it is missing or empty |
| Webhook.TestSkipsNoCheck | nutify/core/extranotifs/webhook/webhook.py:586-588 | the test only switches on `ignore_response_errors`, which does not change URL validation |
| Webhook.TestAnswered | nutify/core/extranotifs/webhook/webhook.py:575-624 | a test that gets an answer succeeds exactly below status 400 |
| Webhook.TestConnectionErrorIsSuccess | nutify/core/extranotifs/webhook/webhook.py:614-622 | a test whose connection fails with a refusal or a non-DNS error counts as a success, with no error type or help, and keeps the message it replaced as `original_error` |
| Webhook.TestDnsErrorIsFailure | nutify/core/extranotifs/webhook/webhook.py:498-516 | a test whose connection fails to resolve stays a dns_error failure with the DNS advice |
| Webhook.EntryFor | nutify/core/extranotifs/webhook/webhook.py:680-700 | each result carries its webhook's id and name |
| Webhook.Succeeded | nutify/core/extranotifs/webhook/webhook.py:706 | the number of successes is positive exactly when some result succeeded |
| Webhook.SendAll | nutify/core/extranotifs/webhook/webhook.py:677-700 | one result per webhook, in order, each that webhook's attempt |
| Webhook.SendEventNotification | nutify/core/extranotifs/webhook/webhook.py:650-712 | no webhooks is a failure; otherwise one result per webhook, success exactly when any succeeded, and "Sent to N webhooks, M succeeded" |
| Ntfy.Show | nutify/core/extranotifs/ntfy/ntfy.py:36 | `str()` of a configuration value: text is itself and a number reads back as that number |
| Ntfy.NewNotifier | nutify/core/extranotifs/ntfy/ntfy.py:9-17 | configured values are taken as given; missing ones default to https://ntfy.sh, no topic, priority 3, tags on and auth off |
| Ntfy.EmptyConfigDefaults | nutify/core/extranotifs/ntfy/ntfy.py:9-17 | an empty configuration gives every default |
| Ntfy.TaggedIffListed | nutify/core/extranotifs/ntfy/ntfy.py:71-84 | an event type has a tag exactly when it is one of the nine listed types |
| Ntfy.PriorityHeader | nutify/core/extranotifs/ntfy/ntfy.py:36 | the override when given, else the configured priority, as text that reads back as the number |
| Ntfy.TagsHeader | nutify/core/extranotifs/ntfy/ntfy.py:39-43 | the Tags header is present exactly when tags are on and the event type is listed, and holds that type's tag |
| Ntfy.BasicAuth | nutify/core/extranotifs/ntfy/ntfy.py:45-48 | auth is sent exactly when enabled with a non-empty username and password, and carries them |
| Ntfy.Judge | nutify/core/extranotifs/ntfy/ntfy.py:60-69 | success exactly for status 200, 201 or 202; otherwise "Error <status>: <text>", or the exception's message |
| Ntfy.SendNotification | nutify/core/extranotifs/ntfy/ntfy.py:19-69 | posts the message to server/topic with the title, the priority, the tags and the auth above, and reports the judged reply |
| Ntfy.PriorityRoundTrip | nutify/core/extranotifs/ntfy/ntfy.py:36 | without an override, the Priority header reads back as the configured number |
| Ntfy.TestMessage | nutify/core/extranotifs/ntfy/ntfy.py:99-113 | an unlisted type gets "Test notification for <type> event" |
| Ntfy.TestRequest | nutify/core/extranotifs/ntfy/ntfy.py:86-118 | a test always posts; with a type the title is "Test: <type>" and the body its message; without one the fixed title and text and no tags |
| Ntfy.EventTitle | nutify/core/extranotifs/ntfy/ntfy.py:151-163 | an unlisted type is titled "UPS Event: <type>" |
| Ntfy.SendEventNotification | nutify/core/extranotifs/ntfy/ntfy.py:120-169 | no default configuration and a disabled event type each fail without posting; otherwise the message is posted under the event title |
| Settings.LStripChars | nutify/core/settings.py:63 | `lstrip`: a suffix of the text that starts with none of the characters, and the text itself when it already does |
| Settings.RStripChars | nutify/core/settings.py:63 | `rstrip`: a prefix of the text that ends with none of the characters, and the text itself when it already does |
| Settings.StripChars | nutify/core/settings.py:42 | `strip`: neither end is one of the characters; text that already qualifies is unchanged |
| Settings.StripCharsAround | nutify/core/settings.py:42 | stripping removes exactly the surrounding run of those characters |
| Settings.Uncomment | nutify/core/settings.py:28-32 | the value left after cutting the comment holds no '#' |
| Settings.CommentCut | nutify/core/settings.py:30-32 | whatever follows the first '#' does not change the parsed value |
| Settings.UncommentCut | nutify/core/settings.py:28-32 | the comment step drops the first '#' and everything after it, and strips what is left |
| Settings.UncommentNoHash | nutify/core/settings.py:28-32 | text without a '#' is only stripped of surrounding blanks |
| Settings.UncommentClean | nutify/core/settings.py:28-32 | a value without a comment or surrounding space is left as it is |
| Settings.TripleQuoted | nutify/core/settings.py:35-40 | text between triple quotes is returned as is |
| Settings.TypedUnclosed | nutify/core/settings.py:41-42 | an opening triple quote without a closing one gives the value with its double quotes stripped |
| Settings.UnclosedTriple | nutify/core/settings.py:41-42 | an unclosed triple quote before plain text gives that text |
| Settings.TypedBoolean | nutify/core/settings.py:44-46 | "true" and "false", in any case, are booleans |
| Settings.BooleanText | nutify/core/settings.py:44-46 | a value reading true or false in any case parses as that boolean |
| Settings.TypedDigits | nutify/core/settings.py:49-51 | all digits is an integer |
| Settings.IntegerText | nutify/core/settings.py:49-51 | a written natural number parses back as itself |
| Settings.NegativeStaysText | nutify/core/settings.py:49-63 | a negative number is not all digits and has no '.', so it stays text |
| Settings.TypedDecimal | nutify/core/settings.py:56-58 | a value with a '.' that parses as a decimal is a float |
| Settings.DecimalText | nutify/core/settings.py:56-58 | a decimal with a '.' parses as that float |
| Settings.QuotedText | nutify/core/settings.py:62-63 | single or double quotes around plain text are removed |
| Settings.LineEntry | nutify/core/settings.py:89-98 | a line assigns exactly when, stripped, it is non-empty, not a comment and holds '=' |
| Settings.LineAssigns | nutify/core/settings.py:95-98 | `key=value` assigns the parsed value to the key, split at the first '=' |
| Settings.Entries | nutify/core/settings.py:88-98 | one entry per line of the file, in order |
| Settings.UnassignedKeeps | nutify/core/settings.py:88-98 | a key no line assigns keeps its previous value |
| Settings.LastAssignmentWins | nutify/core/settings.py:95-98 | the last line assigning a key decides its value |
| Settings.Missing | nutify/core/settings.py:101-108 | exactly the required names that are not set |
| Settings.JoinPath | nutify/core/settings.py:113-114 | an absolute path stays as it is, an empty one gives the base, and any other is placed under the base |
| Settings.Complete | nutify/core/settings.py:112-117 | only the instance path, the database path and the database URI change; the URI is "sqlite:///" and the database path |
| Settings.Finish | nutify/core/settings.py:100-124 | missing required names fail, naming exactly those; otherwise every required name is set, the other settings are kept and the URI points at the database path |
| Settings.AssignLines | nutify/core/settings.py:88-98 | the loop over the file's lines leaves the settings that the lines' assignments give, applied in order over the starting settings |
| Settings.LoadSettings | nutify/core/settings.py:65-124 | a missing file fails; otherwise the defaults are overlaid line by line and then checked and completed |
| Settings.DefaultsSurvive | nutify/core/settings.py:68-79 | a file that never sets SERVER_PORT leaves the default 5050 |
| Integrity.StatusText | nutify/core/db/integrity.py:131-180 | every failure is reported with the "ERROR: " prefix |
| Integrity.CheckColumns | nutify/core/db/integrity.py:81-108 | the loop flags a mismatch exactly when a model column is missing from the table or its type does not start with the table's type, ignoring case |
| Integrity.ExtraColumnHarmless | nutify/core/db/integrity.py:84-94 | a column only the table has never causes a mismatch |
| Integrity.MatchingColumnsAgree | nutify/core/db/integrity.py:84-108 | when every model column is present with an agreeing type there is no mismatch |
| Integrity.CreateStatus | nutify/core/db/integrity.py:150-168 | CREATED exactly when the create succeeds; otherwise an error naming the failure |
| Integrity.RecreateStatus | nutify/core/db/integrity.py:114-145 | RECREATED exactly when the drop and create succeed; otherwise an error naming the failure |
| Integrity.FailedMessage | nutify/core/db/integrity.py:169-173 | an error status that carries the failure's message |
| Integrity.TableOutcome | nutify/core/db/integrity.py:62-173 | PROTECTED exactly for the two protected tables, which are never touched; a missing table is created; an existing mismatched one is dropped and recreated; an existing matching one is OK |
| Integrity.CheckTable | nutify/core/db/integrity.py:62-173 | the status and the action are those of the table's outcome |
| Integrity.MarkOrmManaged | nutify/core/db/integrity.py:174-180 | without model classes, every existing unprotected table, and only those, is ORM_MANAGED |
| Integrity.Outcomes | nutify/core/db/integrity.py:62-173 | one outcome per model, in order |
| Integrity.RecordedGet | nutify/core/db/integrity.py:62-173 | each model's table is recorded with its own status |
| Integrity.RecordedOnlyModels | nutify/core/db/integrity.py:62-173 | only model tables are recorded |
| Integrity.IssuedMembers | nutify/core/db/integrity.py:114-168 | an action is issued exactly when some table's outcome issues it |
| Integrity.CheckModels | nutify/core/db/integrity.py:62-173 | the loop records every outcome and issues every action |
| Integrity.ProtectedUntouched | nutify/core/db/integrity.py:29-67 | no create or drop is ever issued for a protected table |
| Integrity.CheckDatabaseIntegrity | nutify/core/db/integrity.py:15-191 | a failed inspection gives no results and no actions; without models the existing unprotected tables are ORM_MANAGED; otherwise each model table gets its outcome, nothing else is recorded, and protected tables are never touched |
| App.Clamp | nutify/app.py:158-160 | the polling interval is kept within 1 to 60 seconds, unchanged when already inside, pinned to the nearer bound otherwise |
| App.Pow2 | nutify/app.py:162-170 | every power of two used by the back-off is at least 1 |
| App.Backoff | nutify/app.py:162-170 | the back-off sleep after a failed cycle lies between 1 and 300 seconds and is at least 2 once a failure has been counted |
| App.BackoffGrowth | nutify/app.py:162-170 | the back-off doubles with each failure up to 8 failures, is capped at 300 from the ninth on, and never shrinks when another failure is added |
| App.Pow2Monotone | nutify/app.py:162-170 | more failures never give a smaller power of two |
| App.TrailingFailures | nutify/app.py:139-142 | the run of consecutive failed cycles never exceeds the number of cycles |
| App.Poller.constructor | nutify/app.py:128-131 | the polling thread starts with no failures counted |
| App.Poller.Step | nutify/app.py:133-170 | a cycle that saved data resets the failure counter, any other cycle adds one; a completed cycle sleeps the clamped configured interval (1 when unset), an exception sleeps the back-off of the current failure count |
| App.PollingThread | nutify/app.py:128-170 | over a sequence of cycles one sleep is chosen per cycle, each between 1 and 300 seconds, equal to the clamped interval after a completed cycle and to the back-off of the trailing failures after an exception; the final counter equals the trailing run of failed cycles |
| ApiCommon.LastHour | nutify/core/energy/api_energy.py:50-58 | the hour-window query keeps at most the given rows, and every timestamp it keeps lies between one hour before now and now |
| ApiCommon.LastHourMembers | nutify/core/energy/api_energy.py:50-58 | a timestamp is in the window exactly when some row carrying the column has it and it lies within the last hour |
| ApiCommon.Earliest | nutify/core/energy/api_energy.py:68-72 | the minimum timestamp is one of the timestamps and no timestamp is smaller |
| ApiCommon.Latest | nutify/core/energy/api_energy.py:68-72 | the maximum timestamp is one of the timestamps and no timestamp is larger |
| ApiCommon.Enough | nutify/core/energy/api_energy.py:63-81 | there is an hour of data exactly when there are at least 30 points and two of them are at least 50 minutes apart |
| ApiCommon.EnoughOrderFree | nutify/core/energy/api_energy.py:63-81 | the verdict depends only on the multiset of timestamps, not on the order the query returns them in |
| ApiCommon.HourCheck | nutify/core/energy/api_energy.py:60-87 | an error is reported exactly when the query failed; otherwise has_data holds exactly when there are at least 30 points spanning 50 minutes |
| ApiCommon.SpansMeaning | nutify/core/energy/api_energy.py:50-81 | the span test on a table holds exactly when two rows in the window that carry the column are at least 50 minutes apart |
| ApiCommon.HourData | nutify/core/energy/api_energy.py:34-87 | a failed query yields has_data false with its error; otherwise there is no error and has_data holds exactly when the window has at least 30 rows spanning 50 minutes |
| ApiCommon.LastHourAppend | nutify/core/energy/api_energy.py:50-58 | the window of two concatenated row lists is the concatenation of their windows |
| ApiCommon.LastHourNone | nutify/core/energy/api_energy.py:50-58 | rows without the column contribute nothing to the window |
| ApiCommon.LastHourKeepsAll | nutify/core/energy/api_energy.py:50-58 | rows inside the hour that carry the column are all kept |
| ApiCommon.IgnoredRows | nutify/core/energy/api_energy.py:50-87 | rows that lack the column, inserted anywhere among the others, never change the hour-data answer |
| ApiCommon.SelectedDateOrNow | nutify/core/power/api_power.py:92-103 | a non-empty selected date that parses is used; a missing, empty or malformed one falls back to now |
| ApiEnergy.HasHourData | nutify/core/energy/api_energy.py:34-87 | a failed query reports its error; fewer than 30 rows with real power in the last hour give has_data false without error; otherwise has_data holds exactly when those rows span 50 minutes |
| ApiEnergy.RealpowerlessRowsIgnored | nutify/core/energy/api_energy.py:50-58 | rows without ups_realpower never change the energy hour-data answer |
| ApiEnergy.Between | nutify/core/energy/api_energy.py:239-281 | a row is selected exactly when it is one of the rows and its timestamp lies in the closed interval |
| ApiEnergy.Prefer | nutify/core/energy/api_energy.py:152-170 | the preferred series kind is used exactly when it is the calculated one or some row of the window carries its column; otherwise the series is calculated |
| ApiEnergy.ReplaceZ | nutify/core/energy/api_energy.py:221-225 | the result contains no 'Z' and a string without 'Z' is returned unchanged |
| ApiEnergy.FixZone | nutify/core/energy/api_energy.py:221-225 | the fixed timestamp never ends in 'Z' and one that does not end in 'Z' is left alone |
| ApiEnergy.ReplaceZAppend | nutify/core/energy/api_energy.py:221-225 | replacing 'Z' distributes over concatenation |
| ApiEnergy.TrailingZ | nutify/core/energy/api_energy.py:221-225 | a timestamp ending in 'Z' gets the suffix "+00:00" in its place |
| ApiEnergy.Detailed | nutify/core/energy/api_energy.py:202-307 | missing parameters give "Missing required parameters"; a series is returned only when both times parse, the table loads and the type is day or hour; a day detail is never realtime or range, an hour detail never hourly-energy or range; any other type gives "Invalid detail type: " followed by the type |
| ApiEnergy.DayDetailUsesHrs | nutify/core/energy/api_energy.py:239-259 | a day detail uses the hourly-energy column exactly when some row of the window carries ups_realpower_hrs |
| ApiEnergy.EndOfDay | nutify/core/energy/api_energy.py:101-108 | the end of a day is 86399 seconds after its start |
| ApiEnergy.CostTrend | nutify/core/energy/api_energy.py:89-182 | a table failure is reported first; a series is produced only for range, realtime, today and day; range covers the start of the from date to the end of the to date, realtime the last 300 seconds without hourly energy, today the two clock times of the current day (a from time that does not parse fails with its error) without realtime power, day the whole selected day; any other type fails |
| ApiEnergy.TodayTrendUsesHrs | nutify/core/energy/api_energy.py:131-150 | today's series uses the hourly energy column exactly when some row between the two clock times of the current day has it, and falls back to the calculated series otherwise |
| ApiPower.HasHourData | nutify/core/power/api_power.py:129-184 | a failed query reports its error; fewer than 30 rows with real power or load in the last hour give has_data false without error; otherwise has_data holds exactly when they span 50 minutes |
| ApiPower.PowerlessRowsIgnored | nutify/core/power/api_power.py:149-155 | rows with neither ups_realpower nor ups_load never change the answer |
| ApiPower.LoadOnlyRowsCount | nutify/core/power/api_power.py:149-155 | rows in the last hour that carry only ups_load are all counted |
| ApiPower.StatsCall | nutify/core/power/api_power.py:65-107 | period 'today' (exactly) asks for today's stats; 'day' (the default) asks for one day at the selected date, or now when it is missing, empty or malformed; any other period is passed through with its from and to times |
| ApiPower.HistoryCall | nutify/core/power/api_power.py:109-127 | period 'today' asks for today's history; every other period is passed through with from, to and the selected day |
| ApiBattery.HasHourData | nutify/core/battery/api_battery.py:48-102 | a failed query reports its error; fewer than 30 rows with battery_charge in the last hour give has_data false without error; otherwise has_data holds exactly when they span 50 minutes |
| ApiBattery.ChargelessRowsIgnored | nutify/core/battery/api_battery.py:68-73 | rows without battery_charge never change the answer |
| ApiBattery.StatsCall | nutify/core/battery/api_battery.py:24-46 | there is no 'today' shortcut; period 'day' asks for one day at the selected date or now when missing, empty or malformed; any other period is passed through |
| ApiBattery.HistoryCall | nutify/core/battery/api_battery.py:104-132 | period 'today' or today_mode "true" asks for today's history; 'day' with a non-empty selected date asks for that date, parsed or absent when malformed; anything else is passed through |
| ApiBattery.MalformedSelectedDate | nutify/core/battery/api_battery.py:24-132 | a malformed selected date falls back to now for stats but to no date for history |
| ApiVoltage.MeasuredLastHourSelects | nutify/core/voltage/api_voltage.py:81-97 | the nominal-voltage fallback is taken exactly when no row of the last hour carries input_voltage |
| ApiVoltage.HasHourData | nutify/core/voltage/api_voltage.py:67-130 | a failed query reports its error; with measured input voltage in the last hour the answer is the hour check on those rows, otherwise the hour check on the nominal-voltage rows |
| ApiVoltage.FewMeasuredRows | nutify/core/voltage/api_voltage.py:89-104 | between 1 and 29 measured rows give has_data false without falling back to the nominal voltage |
| ApiVoltage.Convert | nutify/core/voltage/api_voltage.py:34-41 | ups_status and input_sensitivity become text; other metrics become numbers, a number is kept and a text value is kept exactly when it parses as a decimal |
| ApiVoltage.Collect | nutify/core/voltage/api_voltage.py:31-41 | only listed metrics appear; each present metric that converts appears, with its converted value |
| ApiVoltage.VoltageMetrics | nutify/core/voltage/api_voltage.py:13-45 | a failed read gives success false with its error; otherwise every reported metric is one of the fifteen voltage metrics present in the UPS data, text exactly for the status and sensitivity, and every numeric one present is reported |

## Left out

- Input and output are not performed by the model. These are parameters or results instead:
  - running `upsc`, SMTP through msmtp, HTTP requests, DNS lookups and socket broadcasts;
  - database queries and commits;
  - reading `settings.txt` and logging.
  Only what the code decides from them is modelled.
- Threads, locks and the Flask application context are not modelled. The polling loop is modelled over a finite sequence of cycle outcomes: `App.Cycle.Raised` stands for any exception, and the sleeps are returned rather than slept.
- Floating point is modelled with exact reals:
  - `round(x, 2)` is `Text.Round2`, which rounds half up on exact decimals, while Python rounds binary floats;
  - `float()` accepts only an optional sign, digits and an optional fraction (no exponents, `inf` or `nan`);
  - `int()` and `float()` accept only ASCII digits, with no `_` separators, and `Text.IsSpace` and the parsers treat only ASCII white space (space, tab, line feed, vertical tab, form feed, carriage return) as blank, not `\x1c`-`\x1f` or Unicode spaces as Python does;
  - `str()` of a float is a `show` parameter where a text of a computed number is needed.
- Time is modelled as whole seconds in one fixed zone, and every day has 86400 seconds. Time-zone localisation, daylight saving and microseconds are not modelled.
- Encryption is modelled abstractly by `Cipher`: a token opens only under the key that sealed it. Fernet and key derivation are not modelled.
- The webhook HMAC digest is a parameter, so only the choice of algorithm and the header rule are modelled. The following are not modelled: the SSL context, the retry adapter, the connection options (`_setup_ssl_verification`, `_configure_retry_adapter`, `_setup_connection_options`), and the JSON encoding of the body.
- `get_ups_info` in the notifier and in the webhook module, and `get_detailed_ups_info`, are database lookups. Their result is an input of the model. `get_source_ip`, `log_message` and `main` are not modelled.
- `nutify/core/db/ups/data.py` `get_historical_data` is a plain query and is not part of this model. `UPSDataCache.get` is also not modelled, and neither are the websocket handlers (`handle_websocket_connect`, `handle_request_cache_data`, `handle_websocket_disconnect`, `init_websocket`).
- `configure_ups`, `DotDict`, and `get_configured_timezone` in `utils.py` and `settings.py` are not modelled. They are glue around the modelled `UPSConfig` and clock.
- The following mail functions are not part of this model: `test_email_config`, `handle_notification`, `get_notification_settings`, `test_notification_settings`, `get_last_known_status`, `get_comm_duration`, `get_battery_age`, `calculate_battery_efficiency`, `validate_emails` and `get_current_email_settings`. `EmailNotifier.should_notify` and `EmailNotifier.get_template_data` are also not modelled. These are database lookups or test front-ends around the modelled rules. The event data and whether the template renders are inputs of `Mail.SendNotification`.
- Rendering of the HTML email templates is not modelled.
- `Settings`: the following are not modelled:
  - case folding is limited to ASCII;
  - the paths `load_settings` builds from `INSTANCE_PATH`/`DB_NAME` are checked only for being text;
  - the file is taken as its list of lines.
- `Integrity.CheckDatabaseIntegrity` requires distinct table names, because the source collects its models in a dictionary keyed by `__tablename__`. Model discovery through the registry is not modelled, and neither is `drop_ups_events_socket_table`.
- `ApiEnergy`: the following are not part of this model: the available-years endpoint, `/api/energy/data`, the cost-series formatting and `get_cost_trend_for_range`. A reply names the series kind and window instead of the series.
  - A failure to load the table model and a failing query are one error.
  - A period type outside the handled ones fails with the text Python 3.11 gives for the unbound local variable.
- `ApiPower`, `ApiBattery` and `ApiVoltage`: `get_*_stats` and `get_*_history` are not modelled. The models return the call that is made. The voltage stats and history endpoints only pass their arguments through.
- Settings.JoinPath: `pathlib` normalisation of repeated or trailing '/' and of '.' components is not modelled.
- Webhook.ValidateUrl: `\d` is read as an ASCII digit; Python also matches other Unicode decimal digits there, which `int()` then accepts.
- Webhook.NewNotifier: a configuration key present with the value `None` is read as missing, so it gets its default; `dict.get` would return `None` there. `retry_timeout` is taken to be a whole number of seconds.
- Webhook.ParseCustomHeaders: the parsed JSON is taken to be either an object of text values or nothing. Three other outcomes are not modelled. First, `headers.update` rejects a non-empty string, a non-zero number, `true`, or a non-empty list that is not a list of pairs (webhook.py:203-204). Second, a list of pairs is merged into the headers. Third, an object with non-text values is refused by the HTTP request. In the source the first and third raise inside `send_notification` (from webhook.py:401 on), which then fails with the exception text (webhook.py:570-572); the model always posts. A false value such as `[]`, `0` or `null` gives no headers, as in the model.
- UpsCache.CalculateAverages: a text column that the last sample lacks is left out of the averages; the data frame would carry NaN for it.
- `ApiVoltage.HasHourData`: the two queries of the nominal-voltage fallback are assumed to see the same rows. The source runs them one after the other.

## Findings

| source | as written | input that shows it | evidently intended | confidence | as-written member | corrected member |
|---|---|---|---|---|---|---|
| nutify/core/events/ups_notifier.py:712-725 | the COMMOK email looks up an open COMMBAD event to compute the outage duration. `store_event_in_database` has already closed every open event of that UPS, so the lookup never finds one. | a COMMBAD event open for "ups1" when COMMOK for "ups1" arrives. After the store, no COMMBAD event is open, and the duration is never set. | the duration of the COMMBAD event that the store just closed | not executed | UpsNotifier.CommOkDurationNeverFound | UpsNotifier.CommOutageMatchesOpenEvent |
| nutify/core/events/ups_notifier.py:1337-1390 | `format_ups_details` builds a power section but never appends it to the report | any UPS info, the empty one included. The report has a device and a battery section but never the power section with the UPS status. | device, power, battery and event sections in that order | not executed | UpsNotifier.PowerBlockMissing | UpsNotifier.FormatUpsDetailsCorrected |
| nutify/core/events/ups_notifier.py:1013-1035 | the ntfy request takes its credentials from `config.to_dict()`, which masks the password as "********" | an ntfy configuration with `use_auth`, username "u" and password "p". Basic auth is sent as ("u", "********"). | basic auth with the stored password | not executed | UpsNotifier.NtfyAuthSendsMask | UpsNotifier.NtfyEventRequestCorrected |
| nutify/core/mail/mail.py:1247-1252 | `float(charge_percent)` runs before the '%' is stripped, so a percent string raises and the estimate is "N/A" | "50%". It gives "N/A". | "50 min", as for "50" | not executed | Mail.PercentChargeUnavailableAsWritten | Mail.EstimateRuntimeFromCharge |
