# WP User Activity: list-table sorting and attachment actions, in Dafny

A model of two pieces of the WP User Activity plugin, which records what users do in a WordPress
site as "activity" posts:

- **The admin list table** (`includes/admin.php`, module `Admin` in `admin.dfy`). It covers the
  columns of the activity list, the primary column, the sortable columns and the months dropdown
  switch. It also covers the sort adapter `wp_user_activity_maybe_sort_by_fields`. For an
  activity query, the adapter turns the abstract sort keys `severity`, `username` and `when` into
  the native WP_Query fields `post_status`, `post_author` and `post_date`. It also sets the
  query's `order`: the request's `order` lower-cased, or `DESC` when the request's `order` is
  absent, "" or "0". `WP_Query` is a class `Admin.Query` with two fields: the
  arguments it was made with (`query`) and the parsed variables (`queryVars`). Its method `Set`
  writes `queryVars`, as `WP_Query::set` does. The adapter is a method that modifies only
  `queryVars`. It is proved against the specification function `SortedVars`.
- **The attachment action handler** (`actions/class-action-attachments.php`, module
  `Attachments` in `attachments.dfy`). The description templates are sequences of literal and
  positional-placeholder segments. `Render` is their `sprintf`. The activity store is a class
  whose records are only ever appended. The handler class `AttachmentActions` holds the template
  table, the object type `attachment` and the store. Its hook methods each append one record.
  Its three callbacks render a record as a sentence.
- `php.dfy` (module `Php`) restates the PHP built-ins the two pieces rely on. These are `empty()`
  on a request string, `strtolower` and ordered string arrays.

Host lookups are parameters. An attachment's title and MIME type come from a `Host` value: two
functions of the attachment id, as the host answers at the time of the event. The activity
post's author link and its "how long ago" phrase come from a `View<P>` value: two functions of
an opaque activity post `P`. The request's `order` parameter is an argument of the adapter.

Three points of the code's behaviour shape the model:

- The adapter does not restrict `order` to asc/desc (see Findings).
- The templates go through `esc_html__`, so the sentences carry `&quot;` where the English text
  has double quotes.
- The handler neither validates nor deduplicates: each hook call appends exactly one record.

## Model

| member | source | states |
|---|---|---|
| `Php.ToLower` | includes/admin.php:92 | `strtolower` keeps the length and lower-cases each character; only A-Z change |
| `Admin.RequestedOrder` | includes/admin.php:87-96 | as written: the order is `DESC` exactly when the request order is absent, empty or "0"; a non-empty request order becomes the order lower-cased, with no check against asc/desc |
| `Admin.RequestedOrderNormalisesCase` | includes/admin.php:91-95 | request `ASC` gives `asc`, `Desc` gives `desc` |
| `Admin.RequestedOrderAcceptsAnyValue` | includes/admin.php:93 | request `foo` gives order `foo`, which is neither a direction nor the default; the corrected order gives `DESC` |
| `Admin.IntendedOrder` | includes/admin.php:88-96 | corrected order: always `asc`, `desc` or `DESC`; a request of asc/desc in any case is taken lower-cased, anything else keeps `DESC` |
| `Admin.NativeOrderby` | includes/admin.php:99-119 | `severity` sorts by `post_status` and `username` by `post_author`, each iff that key was requested; `when`, any other key or none sorts by `post_date` |
| `Admin.SortedVars` | includes/admin.php:80-120 | a query whose `post_type` is empty or lacks `activity` keeps its variables unchanged; otherwise exactly `order` and `orderby` are set and every other variable keeps its value |
| `Admin.MaybeSortByFields` | includes/admin.php:80-120 | the adapter changes only the query's parsed variables, and they become `SortedVars` of the old ones |
| `Admin.ManagePostsColumns` | includes/admin.php:20-32 | the columns are `cb`, `severity`, `username`, `when`, in that order, whatever columns were given |
| `Admin.PrimaryColumn` | includes/admin.php:41-50 | the primary column is `username` on the `edit-activity` screen; elsewhere it is the given name unchanged |
| `Admin.SortableColumns` | includes/admin.php:61-71 | the sortable columns are exactly `severity`, `username`, `when`, each sorting by its own key, whatever was given |
| `Admin.DisableMonthsDropdown` | includes/admin.php:182-191 | the dropdown is disabled for post type `activity`; for any other type the given flag is returned |
| `Admin.SortableColumnsAreShown` | includes/admin.php:64-68 | every sortable column is a shown column; `cb` is shown and not sortable |
| `Admin.SortableColumnsSortNatively` | includes/admin.php:99-119 | the three sortable columns reach three different native fields: status, author, date |
| `Attachments.Render` | actions/class-action-attachments.php:82-87 | `sprintf` with positional placeholders: the result is the literal text of the template after each placeholder is replaced by its argument |
| `Attachments.RenderAppend` | actions/class-action-attachments.php:82-87 | positional substitution of a template made of two parts is the substitution of each part, concatenated |
| `Attachments.RenderSentence` | actions/class-action-attachments.php:41-55 | a description renders as: argument 1, the verb with the opening `&quot;`, argument 2, the closing `&quot;`, argument 3, a full stop |
| `Attachments.SentencePositions` | actions/class-action-attachments.php:41-55 | each description uses placeholders 1, 2 and 3, once each, in that order |
| `Attachments.ActionCallbacksShape` | actions/class-action-attachments.php:36-58 | the template table holds exactly `create`, `update` and `delete`, each with a three-placeholder description |
| `Attachments.DescriptionShape` | actions/class-action-attachments.php:41-55 | any one registered description uses placeholders 1, 2 and 3 in that order and names no fourth argument |
| `Attachments.HookAction` | actions/class-action-attachments.php:61-63 | the handler subscribes to exactly `add_attachment`, `edit_attachment` and `delete_attachment`; they log `create`, `update` and `delete`, each a tag with a template |
| `Attachments.ActivityStore.Insert` | actions/class-action-attachments.php:142-148 | inserting appends the record and changes no earlier record |
| `Attachments.AttachmentActions.constructor` | actions/class-action-attachments.php:33-67 | the handler writes to the store it is given; its object type is `attachment` and its table is `ActionCallbacks` |
| `Attachments.AttachmentActions.AttachmentRecord` | actions/class-action-attachments.php:142-148 | the record of one event: type `attachment`, subtype the MIME type and name the title as the host gives them at event time, the passed id and action; with a registered action it is a logged attachment record |
| `Attachments.AttachmentActions.AddAttachmentActivity` | actions/class-action-attachments.php:138-149 | one record is appended, with type `attachment`, the MIME type and title read at event time, the given id and action |
| `Attachments.AttachmentActions.AddAttachment` | actions/class-action-attachments.php:158-160 | `add_attachment` appends one `create` record for the attachment |
| `Attachments.AttachmentActions.EditAttachment` | actions/class-action-attachments.php:169-171 | `edit_attachment` appends one `update` record for the attachment |
| `Attachments.AttachmentActions.DeleteAttachment` | actions/class-action-attachments.php:180-182 | `delete_attachment` appends one `delete` record for the attachment |
| `Attachments.AttachmentActions.Fire` | actions/class-action-attachments.php:61-63 | a subscribed hook appends exactly one record with its action; any other hook leaves the store alone; a store of attachment records with registered actions stays one |
| `Attachments.AttachmentActions.CreateActionCallback` | actions/class-action-attachments.php:81-88 | the sentence is the author link, "uploaded", the record's stored name in `&quot;`, the how-long-ago phrase |
| `Attachments.AttachmentActions.UpdateActionCallback` | actions/class-action-attachments.php:100-107 | the sentence is the author link, "edited", the record's stored name in `&quot;`, the how-long-ago phrase |
| `Attachments.AttachmentActions.DeleteActionCallback` | actions/class-action-attachments.php:119-126 | as written, a deletion renders with the `update` template: "edited", not "deleted" |
| `Attachments.AttachmentActions.IntendedDeleteActionCallback` | actions/class-action-attachments.php:53-57 | corrected: a deletion renders with the `delete` template, "deleted" |
| `Attachments.AttachmentActions.DeleteRendersAsEdit` | actions/class-action-attachments.php:121 | for every post and record, the delete sentence equals the update sentence and differs from the `delete` template's sentence |
| `Attachments.UploadScenario` | actions/class-action-attachments.php:138-160 | uploading attachment 42 (`cat.png`, `image/png`) and then renaming it to `dog.png` logs two records, each with the name of its own time; the upload still renders with `cat.png` |

The callbacks are functions. They read only their arguments and the handler's constant table,
so rendering cannot change a stored record.

## Left out

- The `apply_filters` call of `wp_user_activity_manage_posts_columns`: the model returns the
  unfiltered columns. A filter is host code that the model cannot see.
- Translation: every `esc_html__` text is its English source string. `esc_html` is applied by
  hand: it affects only the double quotes of the three templates.
- `wp_user_activity_manage_custom_column_data`, `wp_user_activity_admin_assets` and
  `wp_user_activity_add_dropdown_filters`: output, stylesheet enqueueing and HTML.
  `wp_user_activity_manage_custom_column_data` prints the severity, the action sentence or the
  date, chosen by the column name. The other two return early unless the post type is
  `activity`.
- Hook registration through `add_action`: `Fire` stands for the host invoking the registered
  callback. The plugin bootstrap in wp-user-activity.php holds only includes, a URL helper and a
  constant, so it is not part of this model.
- The base class `WP_User_Activity_Action` is not part of this model.
  `get_activity_action` is modelled as a lookup in the handler's table.
  `get_activity_author_link` and `get_how_long_ago` are opaque functions of the activity post
  (`View`). Their clock and locale dependence is outside the model.
- `wp_insert_user_activity` is modelled as an append to the store. Its returned id, the author,
  the date and the metadata storage are not modelled.
- `get_post`, `get_the_title` and `get_post_mime_type` are modelled as the `Host` functions of
  the attachment id. What the host answers for a missing attachment is whatever those functions
  return.
- Admin.MaybeSortByFields: an array-valued `order` request parameter is not modelled. The request
  order is an optional string. With an array, PHP's `strtolower` warns or throws, depending on
  the PHP version.
- Admin.NativeOrderby: query values are strings or lists of strings. So PHP's loose `switch`
  comparison reduces to string equality. Integer or null values of `orderby` other than an
  absent key are not modelled.
- Php.ToLower: follows PHP 8.2 and later (ASCII only). Earlier versions lower-case according to
  the locale.
- The callbacks' default `$meta = array()`: reading `object_name` from an array is not modelled.
  The callbacks take a record.
- The other action handlers (comments, posts, users and the rest) are not part of this model.

## Findings

| source | as written | input that shows it | evidently intended | confidence | as-written member | corrected member |
|---|---|---|---|---|---|---|
| includes/admin.php:93 | the guard tests `$order`, which is always `'DESC'` and never in `array('asc','desc')`, so any non-empty request order is taken lower-cased | request `order=foo` sets order `foo` | test `$new_order`, so that only asc/desc override the default `DESC` | high; not executed | `Admin.RequestedOrderAcceptsAnyValue` | `Admin.IntendedOrder` |
| actions/class-action-attachments.php:121 | `delete_action_callback` fills the `'update'` template, so deletions read "edited" | any deleted attachment: the sentence says "edited" | use the registered `'delete'` template, which says "deleted" | high; not executed | `Attachments.AttachmentActions.DeleteRendersAsEdit` | `Attachments.AttachmentActions.IntendedDeleteActionCallback` |

The adapter and the delete callback are modelled as the code is written, because they describe
what the plugin does. The corrected definitions sit beside them, with their intended properties
proved.
