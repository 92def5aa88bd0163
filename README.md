# Vacation-rental cleaning app: the client-side stores, in Dafny

This project models the in-memory state containers of a vacation-rental and
cleaning-management web client.

**The stores.** There are nine of them:
- cleaning jobs, calendar events, house bookings, houses, managed properties
- transient notifications, UI state, the user's profile and settings, authentication

There are also the calendar constants: view names, check-in and check-out time slots, default colours.

**Modelling choices.**
- *Remote calls.* Every remote call in these stores is a stub, so each action is a synchronous update of lists, maps and records.
- *Classes and entity lists.* Each store is a `class` whose fields are the store's state and whose methods are its actions. An entity list is a `seq` of `Record`s: id, `createdAt`, `updatedAt` and the entity's own fields. The getters are functions over those sequences.
- *Fresh ids and the clock.* The random UUID and the clock become the parameters `freshId` and `now`. Timestamps are integers.
- *Partial updates.* `Partial<T>` is a record of `Option` fields, and a missing key is `None`.

**What is proved.**
- *Entity lists.*
  - Creation appends exactly one stamped record.
  - An update replaces only the first record carrying the id, and does nothing when the id is absent.
  - A deletion removes every record carrying the id, keeps the rest in order, and is idempotent.
  - The getters keep list order and hold exactly the matching records, each with its multiplicity (for the cleaning jobs, `CleaningJobs.JobGettersKeepOrder`).
  - The five job-status getters partition the jobs, and the four property-type getters partition the properties.
- *Calendar filter.* It is one order-preserving, idempotent pass. Appending and deleting commute with it.
- *Notifications.* A removal is scheduled exactly for a truthy duration. Removing a just-added notification restores the queue.
- *UI store.* The theme and sidebar toggles are involutions. Map updates touch only their own key.
- *User and auth stores.* Merges are shallow and apply only to a present record. The role getters are exclusive. The fabricated login and registration records are fixed.
- *Calendar constants.* The view map, the time-slot tables and the colours satisfy their stated shape.

**Where the code does less than one would expect, the model follows the code.**
- *Calendar filter criteria.* The calendar filter reads `userId`, `houseId` and `dateRange`. The criteria declared in the filter type, `propertyId`, `assignedTo`, `type` and `status`, are never consulted: `Calendar.FilterCriteriaThatDoNotNarrow` proves that they have no effect. Events carry `userId` and `houseId` as optional fields, because the filter reads them although the event type does not declare them.
- *Notification durations.* A notification schedules its removal when its duration is *truthy*, not when it is positive. A negative duration schedules one too; zero and a missing duration do not.
- *Completion consistency.* One would expect "`completion.completed` holds exactly when the status is completed" to hold of every job; the job type does not enforce it. `completeJob` establishes it. `updateJobStatus` and `updateJob` can break it: `CleaningJobs.StatusUpdateMayBreakConsistency` gives an example.
- *`activeBookings`.* It compares the status with `'active'`, which is not a booking status, so it is always empty (`Bookings.ActiveBookingsAlwaysEmpty`).
- *Booking conditions.* One would expect `checkIn < checkOut` and `totalPrice >= 0`; neither the booking type nor any action enforces them, so the model does not assume them.
- *Logout.* It does not clear `error`, unlike login and registration.
- *Calendar fetch.* `fetchEvents` stores the filters it was given and empties the list.

## Model

| member | source | states |
|---|---|---|
| Entities.IndexOf | src/stores/cleaning-job.ts:76 | the first position whose id matches, or -1 exactly when no record has the id |
| Entities.FindById | src/stores/cleaning-job.ts:27 | none exactly when no record has the id; otherwise the record at the first matching position |
| Entities.MergeProperties | src/stores/cleaning-job.ts:78-82 | an updatedAt in the patch never wins over the refresh, merging the same patch twice equals merging it once, and a patch without shared keys keeps id and createdAt |
| Entities.ApplyFirst | src/stores/cleaning-job.ts:76-83 | length kept; only the first record with the id is replaced; an absent id leaves the list unchanged |
| Entities.RemoveById | src/stores/calendar.ts:132 | no record with the id remains, and every other record of the list is kept |
| Entities.FindAfterAppend | src/stores/property.ts:49-55 | after appending a record with a fresh id, looking up that id finds it and other lookups are unchanged |
| Entities.AppendFreshKeepsUnique | src/stores/cleaning-job.ts:55-61 | appending a record with a fresh id keeps ids unique |
| Entities.RemoveByIdProperties | src/stores/house.ts:102 | after deletion the id is not found, the rest keep their order, deleting again changes nothing, and deleting an absent id changes nothing |
| Entities.FindAfterRemove | src/stores/property.ts:91 | deleting one id leaves the lookup of every other id unchanged |
| Entities.ApplyFirstTwice | src/stores/booking.ts:91-98 | two first-match replacements, the first keeping the id, equal one replacement by their composition |
| CleaningJobs.JobsWithStatus | src/stores/cleaning-job.ts:20-24 | exactly the jobs with the given status; order and multiplicity in CleaningJobs.JobGettersKeepOrder |
| CleaningJobs.JobsByProperty | src/stores/cleaning-job.ts:28-29 | exactly the jobs of the given property; order and multiplicity in CleaningJobs.JobGettersKeepOrder |
| CleaningJobs.JobsByStaff | src/stores/cleaning-job.ts:30-31 | exactly the jobs assigned to the given user; order and multiplicity in CleaningJobs.JobGettersKeepOrder |
| CleaningJobs.JobGettersKeepOrder | src/stores/cleaning-job.ts:20-31 | the status, property and staff getters are order-preserving subsequences of the jobs holding every occurrence of a matching job and nothing else, so each is exactly the matching jobs in list order |
| CleaningJobs.StatusGettersPartition | src/stores/cleaning-job.ts:20-24 | the five status getters together hold every job exactly once |
| CleaningJobs.MergeJobChangesOnlyNamedFields | src/stores/cleaning-job.ts:78-82 | an update naming only the status changes only status and updatedAt; an empty update changes only updatedAt |
| CleaningJobs.MergeJobIdempotent | src/stores/cleaning-job.ts:78-82 | applying the same update twice equals applying it once |
| CleaningJobs.CompleteRecordProperties | src/stores/cleaning-job.ts:120-130 | the completed and completedAt keys of the details never matter, and completing an already completed job again equals completing it once at the later time (consistency of the result: CleaningJobs.CompleteJobIsConsistent) |
| CleaningJobs.MergeJob | src/stores/cleaning-job.ts:78-82 | `{...job, ...updates, updatedAt}`: a key of the update wins, a missing key keeps the field; its properties are CleaningJobs.MergeJobChangesOnlyNamedFields and CleaningJobs.MergeJobIdempotent |
| CleaningJobs.UpdatesOfAbsentIdAreNoOps | src/stores/cleaning-job.ts:71-138 | updateJob, updateJobStatus and completeJob leave a list without the id unchanged |
| CleaningJobs.StatusUpdateChangesOnlyStatus | src/stores/cleaning-job.ts:97-104 | the status update changes only status and updatedAt of the first match, which then appears under its new status |
| CleaningJobs.CompleteJobIsConsistent | src/stores/cleaning-job.ts:118-131 | the completed job has its completion flag consistent with its status and appears among the completed jobs |
| CleaningJobs.StatusUpdateMayBreakConsistency | src/stores/cleaning-job.ts:99-103 | setting the status to completed through the status update leaves the completion flag false |
| CleaningJobs.CleaningJobStore.constructor | src/stores/cleaning-job.ts:12-17 | no jobs, no selection, not loading, no error |
| CleaningJobs.CleaningJobStore.FetchJobs | src/stores/cleaning-job.ts:35-48 | the list is emptied, the selection kept, loading false and error none |
| CleaningJobs.CleaningJobStore.CreateJob | src/stores/cleaning-job.ts:50-69 | exactly the stamped job is appended and returned |
| CleaningJobs.CleaningJobStore.UpdateJob | src/stores/cleaning-job.ts:71-90 | the list becomes the first-match merge of the update |
| CleaningJobs.CleaningJobStore.UpdateJobStatus | src/stores/cleaning-job.ts:92-111 | the list becomes the first-match status replacement |
| CleaningJobs.CleaningJobStore.CompleteJob | src/stores/cleaning-job.ts:113-138 | the list becomes the first-match completion replacement |
| CleaningJobs.CleaningJobStore.SetSelectedJob | src/stores/cleaning-job.ts:140-142 | the selection is the given job and nothing else changes |
| Calendar.FilteredEvents | src/stores/calendar.ts:43-63 | an event is shown exactly when it is in the list and meets every set criterion: user and house when truthy, inclusive date range when given |
| Calendar.FilteredEventsIsOnePass | src/stores/calendar.ts:47-60 | the three successive filters equal one filter by the conjunction of the criteria |
| Calendar.FilteredEventsKeepOrder | src/stores/calendar.ts:44-62 | the filtered events are an order-preserving subsequence of the events |
| Calendar.FilteredEventsIdempotent | src/stores/calendar.ts:47-60 | filtering the filtered events again gives the same sequence |
| Calendar.FilterCriteriaThatDoNotNarrow | src/stores/calendar.ts:47-60 | no criteria gives every event; empty user or house criteria count as absent; propertyId, assignedTo, type and status have no effect |
| Calendar.FilteredEventsAfterAppend | src/stores/calendar.ts:90-96 | after an append the new event is shown at the end exactly when it meets the criteria |
| Calendar.FilteredEventsAfterRemove | src/stores/calendar.ts:132 | deleting then filtering equals filtering then deleting |
| Calendar.MergeEventProperties | src/stores/calendar.ts:113-117 | an empty update only refreshes updatedAt, a start-only update changes only the start, and merging twice equals merging once |
| Calendar.MergeEvent | src/stores/calendar.ts:113-117 | `{...event, ...updates, updatedAt}`; its properties are Calendar.MergeEventProperties |
| Calendar.DefaultBusinessHoursWellFormed | src/stores/calendar.ts:27-36 | business days are Monday to Friday and the hours run from 09:00 to 17:00 |
| Calendar.MergeConfigProperties | src/stores/calendar.ts:153-155 | an empty update changes nothing, a merge is idempotent, and two updates compose key by key with the later winning |
| Calendar.MergeConfig | src/stores/calendar.ts:154 | `{...config, ...patch}`, shallow; its properties are Calendar.MergeConfigProperties |
| Calendar.CalendarStore.constructor | src/stores/calendar.ts:22-40 | no events, month view, nothing selected, the default configuration, no filters, not loading, no error |
| Calendar.CalendarStore.Filtered | src/stores/calendar.ts:43-63 | the filteredEvents getter is Calendar.FilteredEvents of the stored events and filters |
| Calendar.CalendarStore.FetchEvents | src/stores/calendar.ts:69-83 | the filters are stored, the events emptied, loading false and error none |
| Calendar.CalendarStore.AddEvent | src/stores/calendar.ts:85-104 | exactly the stamped event is appended and returned |
| Calendar.CalendarStore.UpdateEvent | src/stores/calendar.ts:106-125 | the events become the first-match merge of the update |
| Calendar.CalendarStore.DeleteEvent | src/stores/calendar.ts:127-139 | every event with the id is removed |
| Calendar.CalendarStore.SetCurrentView | src/stores/calendar.ts:141-143 | the view is set and nothing else changes |
| Calendar.CalendarStore.SetSelectedDate | src/stores/calendar.ts:145-147 | the date is set and nothing else changes |
| Calendar.CalendarStore.SetSelectedEvent | src/stores/calendar.ts:149-151 | the event is set and nothing else changes |
| Calendar.CalendarStore.UpdateConfig | src/stores/calendar.ts:153-155 | the configuration becomes the shallow merge and nothing else changes |
| CalendarViews.ViewMapFacts | src/constants/calendar.ts:19-23 | the map has keys month, week and day, sends them to the three grids, is injective, and reaches neither the list view nor does any offered option |
| CalendarViews.CalendarViewsFollowViewMap | src/constants/calendar.ts:10-14 | the offered views are, in order, the map's images of month, week and day |
| CalendarViews.SlotsAreHourly | src/constants/calendar.ts:28-47 | check-in slots are the hours 12 to 18 and check-out slots the hours 8 to 12, each labelled with its 12-hour rendering |
| CalendarViews.SlotValuesIncreaseHourly | src/constants/calendar.ts:28-47 | slot values read as times increase by one hour per slot, 12:00 to 18:00 and 08:00 to 12:00 |
| CalendarViews.DefaultColorsAreDistinctHexColors | src/constants/calendar.ts:52-63 | ten colours, each # and six hex digits, pairwise distinct |
| Bookings.BookingsWithStatusName | src/stores/booking.ts:20-22 | exactly the bookings whose status name is the one compared against |
| Bookings.ActiveBookingsAlwaysEmpty | src/stores/booking.ts:20 | the getter comparing with "active" is empty for every booking list |
| Bookings.StatusGettersKeepOrderAndAreDisjoint | src/stores/booking.ts:21-22 | pending and cancelled bookings keep list order and share no booking |
| Bookings.MergeBookingProperties | src/stores/booking.ts:72-76 | an empty update only refreshes updatedAt and merging twice equals merging once |
| Bookings.MergeBooking | src/stores/booking.ts:72-76 | `{...booking, ...updates, updatedAt}`; its properties are Bookings.MergeBookingProperties |
| Bookings.CancelAt | src/stores/booking.ts:93-97 | the cancellation replacement keeps id, createdAt and payment status, sets status cancelled and updatedAt the new time |
| Bookings.PayAt | src/stores/booking.ts:114-118 | the payment replacement keeps id, createdAt and status, sets the payment status and updatedAt the new time |
| Bookings.CancelBookingEffect | src/stores/booking.ts:91-98 | the first match gets status cancelled and a new updatedAt and is then cancelled and not pending; an absent id is a no-op |
| Bookings.CancelBookingIdempotent | src/stores/booking.ts:93-97 | cancelling twice equals cancelling once at the later time |
| Bookings.PaymentUpdateEffect | src/stores/booking.ts:112-119 | only paymentStatus and updatedAt of the first match change, and no other booking |
| Bookings.UpdatesOfAbsentIdAreNoOps | src/stores/booking.ts:65-126 | update, cancel and payment update leave a list without the id unchanged |
| Bookings.BookingStore.constructor | src/stores/booking.ts:12-17 | no bookings, no selection, not loading, no error |
| Bookings.BookingStore.GetBookingById | src/stores/booking.ts:25 | none exactly when no booking has the id, otherwise the first match (Entities.FindById) |
| Bookings.BookingStore.FetchBookings | src/stores/booking.ts:29-42 | the list is emptied, loading false and error none |
| Bookings.BookingStore.CreateBooking | src/stores/booking.ts:44-63 | exactly the stamped booking is appended and returned |
| Bookings.BookingStore.UpdateBooking | src/stores/booking.ts:65-84 | the list becomes the first-match merge of the update |
| Bookings.BookingStore.CancelBooking | src/stores/booking.ts:86-105 | the list becomes the first-match cancellation |
| Bookings.BookingStore.UpdatePaymentStatus | src/stores/booking.ts:107-126 | the list becomes the first-match payment replacement |
| Bookings.BookingStore.SetSelectedBooking | src/stores/booking.ts:128-130 | the selection is the given booking and nothing else changes |
| Houses.ActiveHouses | src/stores/house.ts:31 | exactly the houses whose status is active |
| Houses.ActiveHousesKeepOrder | src/stores/house.ts:31 | the active houses keep list order and are the whole list when every house is active |
| Houses.LookupAfterStore | src/stores/house.ts:35-36 | a house never fetched reads as the empty list; storing a list for one house reads back that list and leaves every other house's lookup unchanged |
| Houses.MergeHouseProperties | src/stores/house.ts:83-87 | an empty update only refreshes updatedAt and merging twice equals merging once |
| Houses.MergeHouse | src/stores/house.ts:83-87 | `{...house, ...updates, updatedAt}`; its properties are Houses.MergeHouseProperties |
| Houses.DeactivatedHouseLeavesActive | src/stores/house.ts:81-88 | an update setting a non-active status removes that house from the active houses and touches no other house |
| Houses.HouseStore.constructor | src/stores/house.ts:21-28 | no houses, no selection, empty tables, not loading, no error |
| Houses.HouseStore.GetHouseById | src/stores/house.ts:34 | none exactly when no house has the id, otherwise the first match (Entities.FindById) |
| Houses.HouseStore.GetHouseAvailability | src/stores/house.ts:35 | the stored availability of the house, or the empty list (Houses.LookupAfterStore) |
| Houses.HouseStore.GetHouseBookings | src/stores/house.ts:36 | the stored bookings of the house, or the empty list (Houses.LookupAfterStore) |
| Houses.HouseStore.FetchHouses | src/stores/house.ts:40-53 | the list is emptied and the tables and selection kept |
| Houses.HouseStore.AddHouse | src/stores/house.ts:55-74 | exactly the stamped house is appended and returned |
| Houses.HouseStore.UpdateHouse | src/stores/house.ts:76-95 | the list becomes the first-match merge of the update |
| Houses.HouseStore.DeleteHouse | src/stores/house.ts:97-109 | every house with the id is removed |
| Houses.HouseStore.FetchHouseAvailability | src/stores/house.ts:111-124 | only the given house's availability entry is set, to the empty list |
| Houses.HouseStore.FetchHouseBookings | src/stores/house.ts:126-139 | only the given house's bookings entry is set, to the empty list |
| Houses.HouseStore.SetSelectedHouse | src/stores/house.ts:141-143 | the selection is the given house and nothing else changes |
| Properties.ActiveProperties | src/stores/property.ts:20 | exactly the active properties |
| Properties.PropertiesByType | src/stores/property.ts:24-25 | exactly the properties of the given type |
| Properties.GettersKeepOrder | src/stores/property.ts:20-25 | both getters keep list order |
| Properties.TypeGettersPartition | src/stores/property.ts:24-25 | the four by-type lists together hold every property exactly once |
| Properties.MergePropertyProperties | src/stores/property.ts:72-76 | an empty update only refreshes updatedAt and merging twice equals merging once |
| Properties.MergeProperty | src/stores/property.ts:72-76 | `{...property, ...updates, updatedAt}`; its properties are Properties.MergePropertyProperties |
| Properties.FindAfterAdd | src/stores/property.ts:49-55 | a property added under a fresh id is what that id finds, and it is active in the getter exactly when its status is active |
| Properties.PropertyStore.constructor | src/stores/property.ts:12-17 | no properties, no selection, not loading, no error |
| Properties.PropertyStore.GetPropertyById | src/stores/property.ts:23 | none exactly when no property has the id, otherwise the first match (Entities.FindById) |
| Properties.PropertyStore.FetchProperties | src/stores/property.ts:29-42 | the list is emptied, loading false and error none |
| Properties.PropertyStore.AddProperty | src/stores/property.ts:44-63 | exactly the stamped property is appended and returned |
| Properties.PropertyStore.UpdateProperty | src/stores/property.ts:65-84 | the list becomes the first-match merge of the update |
| Properties.PropertyStore.DeleteProperty | src/stores/property.ts:86-98 | every property with the id is removed |
| Properties.PropertyStore.SetSelectedProperty | src/stores/property.ts:100-102 | the selection is the given property and nothing else changes |
| Notifications.Remove | src/stores/notification.ts:48 | exactly the notifications with another id remain |
| Notifications.RemoveKeepsOrderAndIsIdempotent | src/stores/notification.ts:47-49 | removal keeps the order of the rest and a second removal of the same id changes nothing |
| Notifications.RemoveAfterAdd | src/stores/notification.ts:31-48 | removing a just-added notification with a fresh id restores the queue |
| Notifications.NotificationStore.constructor | src/stores/notification.ts:18-22 | an empty queue, not loading, no error |
| Notifications.NotificationStore.ActiveNotifications | src/stores/notification.ts:25 | the activeNotifications getter is the queue as it stands |
| Notifications.NotificationStore.AddNotification | src/stores/notification.ts:31-45 | exactly the stamped notification is appended, and the scheduled removal is returned |
| Notifications.NotificationStore.RemoveNotification | src/stores/notification.ts:47-49 | the queue becomes the removal of the id |
| Notifications.NotificationStore.ClearNotifications | src/stores/notification.ts:51-53 | the queue is empty |
| Notifications.NotificationStore.AddSuccess | src/stores/notification.ts:55-61 | the same as adding a notification of kind success |
| Notifications.NotificationStore.AddError | src/stores/notification.ts:63-69 | the same as adding a notification of kind error |
| Notifications.NotificationStore.AddWarning | src/stores/notification.ts:71-77 | the same as adding a notification of kind warning |
| Notifications.NotificationStore.AddInfo | src/stores/notification.ts:79-85 | the same as adding a notification of kind info |
| Notifications.AddThenExpire | src/stores/notification.ts:37-44 | a removal is scheduled exactly for a truthy duration: a notification with one is gone once its removal runs and the queue is as before; otherwise it stays |
| Ui.Toggled | src/stores/ui.ts:53-55 | the toggled theme differs from the current one |
| Ui.ToggledInvolution | src/stores/ui.ts:53-55 | toggling twice restores the theme |
| Ui.IsModalOpen | src/stores/ui.ts:27 | a modal is open exactly when it has an entry whose isOpen flag is set; a modal never opened is closed |
| Ui.IsLoading | src/stores/ui.ts:28 | a flag is on exactly when its entry is set to true; a flag never set is off |
| Ui.UiStore.constructor | src/stores/ui.ts:18-24 | no modals, no loading flags, light theme, sidebar open, no error |
| Ui.UiStore.OpenModal | src/stores/ui.ts:35-41 | the modal is open with the given component and props and every other modal is as it was |
| Ui.UiStore.CloseModal | src/stores/ui.ts:43-47 | a known modal is closed keeping component and props; an unknown id creates no entry |
| Ui.UiStore.SetLoading | src/stores/ui.ts:49-51 | the flag reads back as set and every other flag is as it was |
| Ui.UiStore.ToggleTheme | src/stores/ui.ts:53-55 | the theme becomes the other theme |
| Ui.UiStore.SetTheme | src/stores/ui.ts:57-59 | the theme is the given one |
| Ui.UiStore.ToggleSidebar | src/stores/ui.ts:61-63 | the sidebar flag is negated |
| Ui.UiStore.SetSidebarOpen | src/stores/ui.ts:65-67 | the sidebar flag is the given one |
| Ui.UiStore.ClearError | src/stores/ui.ts:69-71 | the error is none |
| Ui.UiStore.SetError | src/stores/ui.ts:73-75 | the error is the given message |
| Ui.ToggleTwiceAndReopen | src/stores/ui.ts:35-63 | toggling theme and sidebar twice restores them, and opening then closing a modal leaves it closed with its component and props |
| Users.IsAdmin | src/stores/user.ts:22 | a user is present and has the admin role (exclusivity: Users.RolesAreExclusive) |
| Users.IsManager | src/stores/user.ts:23 | a user is present and has the manager role (exclusivity: Users.RolesAreExclusive) |
| Users.RolesAreExclusive | src/stores/user.ts:22-23 | admin and manager never hold together, and neither holds without a user or for the plain role |
| Users.MergeUser | src/stores/user.ts:60 | `{...currentUser, ...updates}`; its properties are Users.MergesAreIdempotent |
| Users.MergePreferences | src/stores/user.ts:100 | `{...preferences, ...updates}`; its properties are Users.MergesAreIdempotent |
| Users.MergeSettings | src/stores/user.ts:150 | `{...settings, ...updates}`, shallow; its properties are Users.SettingsMergeIsShallow and Users.MergesAreIdempotent |
| Users.MergeIfPresentProperties | src/stores/user.ts:59-61 | the guarded merge of a record that may be absent is idempotent when the merge is, and gives the record back when the merge changes nothing |
| Users.SettingsMergeIsShallow | src/stores/user.ts:150 | a supplied preferences record replaces the nested one whole |
| Users.MergesAreIdempotent | src/stores/user.ts:59-61 | profile, preference and settings merges are idempotent and an empty update changes nothing |
| Users.DefaultSettingsFacts | src/stores/user.ts:115-134 | the fetched settings carry the fetched preferences, the month view and hours from 09:00 to 17:00 |
| Users.FetchedUser | src/stores/user.ts:36-44 | the stub profile has the requested id, the plain user role, a verified email and both timestamps the current time |
| Users.UserStore.constructor | src/stores/user.ts:13-19 | no user, preferences or settings, not loading, no error |
| Users.UserStore.FetchUserProfile | src/stores/user.ts:31-52 | the user has the requested id and the plain user role, so neither role getter holds |
| Users.UserStore.UpdateUserProfile | src/stores/user.ts:54-68 | the profile is merged when present and stays absent otherwise |
| Users.UserStore.FetchUserPreferences | src/stores/user.ts:70-92 | the preferences are the fixed defaults |
| Users.UserStore.UpdateUserPreferences | src/stores/user.ts:94-108 | the preferences are merged when present and stay absent otherwise |
| Users.UserStore.FetchUserSettings | src/stores/user.ts:110-142 | the settings are the fixed defaults |
| Users.UserStore.UpdateUserSettings | src/stores/user.ts:144-158 | the settings are merged shallowly when present and stay absent otherwise |
| Auth.LoggedInUser | src/stores/auth.ts:24-32 | id temp-id, the given email, the plain user role and a verified email |
| Auth.RegisteredUser | src/stores/auth.ts:47-55 | the given email and display name, the plain user role and an unverified email |
| Auth.AuthStore.constructor | src/stores/auth.ts:5-9 | no user, not loading, no error |
| Auth.AuthStore.IsAuthenticated | src/stores/auth.ts:12 | a user is signed in; login and registration make it hold and logout makes it fail |
| Auth.AuthStore.Login | src/stores/auth.ts:19-40 | the fabricated user is signed in, loading false and error none |
| Auth.AuthStore.Register | src/stores/auth.ts:42-63 | the registered user is signed in, loading false and error none |
| Auth.AuthStore.Logout | src/stores/auth.ts:65-76 | no user is signed in, loading false and the earlier error kept |

## Left out

- Asynchrony, Pinia reactivity and the `catch` branches are not modelled. No mocked action awaits anything, and none of them can fail. Each action is therefore the success path: `loading` is set, then cleared, with `error` none at the end.
- The random UUID and the clock are the parameters `freshId` and `now`. Every action's clock reads are the same `now`. ISO-8601 strings are integers, so the date parsing of the calendar filter (including invalid dates) is not modelled.
- `setTimeout` in `addNotification` is represented by the returned `Timer`. Its firing is a later call of `RemoveNotification`, and timer concurrency is not modelled.
- `checkAuth` and the router guard are not modelled, because they depend on `localStorage` and `JSON.parse`.
- The getters `isLoading` and the `…Error` getters just return a field, so they are fields here. `getJobById` has no member of its own in the job store: it is `Entities.FindById` over the jobs.
- A key given explicitly as `undefined` in a partial update is treated as absent. In the source it would overwrite the field with `undefined`.
- Numbers are unbounded integers. Prices, fees, durations and guest counts lose their floating-point nature, and a `NaN` duration (falsy) is not representable.
- Location coordinates, house images and the calendar widget's own option types are not part of this model.
- Ids used as keys of plain objects (house ids in the availability and booking tables, modal and loading ids in the UI store) are taken never to be names every JavaScript object inherits, such as `toString`, `constructor` or `__proto__`. For such an id the source's `table[id] || []` and `loadingStates[id] || false` would find the inherited value instead of the default; the model returns the default.
- Modal props (`Record<string, any>`) are string maps. Their values are opaque.
- The cleaning-job and property stores import their entity types from the model index, which does not export them. The model takes those types from their own declaration files.
