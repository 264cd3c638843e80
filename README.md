# License Manager for WooCommerce: generator REST controller and product license flags

This project models two pieces of request-decision logic from the License Manager for WooCommerce plugin and proves properties of them in Dafny.

- **The v1 `Generators` REST controller** (`GET /generators`, `GET /generators/{id}`, `POST /generators`, `PUT /generators/{id}`). Each handler is a fixed chain of early-return checks:
  - a route gate;
  - parsing of the generator id;
  - field checks, in a fixed order;
  - at most one repository call;
  - mapping the outcome to a generator DTO or to the uniform `lmfwc_rest_data_error` / 404 error.
- **`ProductManager`**:
  - `savePost` turns the posted product form into four integer post-meta writes and an optional error transient;
  - `inventoryManagementTab` adds the plugin's "Licenses" tab to WooCommerce's product-data tabs.

## Layout

- `php.dfy` (module `Php`) covers the PHP values the code handles: null, booleans, integers, strings, lists (arrays with keys 0..n-1), string-keyed arrays and stdClass objects.
  - It defines PHP truthiness (`""`, `"0"`, `0`, null, false and an empty array are falsy; an object is truthy), `isset`, a missing-key read, `intval`, `absint`, `is_numeric`, `strlen(...) <= 0` and the `(array)` cast.
  - Helpers whose code is not part of the plugin are fields of an opaque `Runtime` record: the string cases of `intval` and `is_numeric`, `sanitize_text_field`, `isJson` and `json_decode`.
- `decimal.dfy` (module `Decimal`) holds the `%d` formatting of non-negative integers and its inverse.
- `generators.dfy` (module `GeneratorsApi`) holds the generator model, the DTO, responses, repository calls and the `Generators` controller class.
  - The controller's `settings` field is set by its constructor.
  - `GetGenerators` is a method with the source's loop.
  - The other three handlers are functions of the settings, the request and the repository's outcome.
- `generators_properties.dfy` (module `GeneratorsProperties`) holds lemmas that relate the controller's checks to independent statements of the validation order and that relate several calls.
- `product_manager.dfy` (module `ProductManager`) holds:
  - the tab function;
  - the post-meta store, a class `WpStore` that holds post meta and transients;
  - `SavePost` and its steps;
  - the value-level specification `ProductFlags` / `SavedMeta` and lemmas about it.

The repository is not modelled; its outcome is an input.
- Each handler receives what the repository's `find`, `findAll`, `insert` or `update` would give: a record, nothing, or an exception with a message.
- Each handler returns a `Handled(response, call)` value. `call` is the repository call the handler made, or `None` when it did not consult the repository.
- This is how "no repository call on a disabled route or a failed check" is stated.

Behaviours of the code worth knowing:
- **`update` exceptions escape the handler.** In `updateGenerator` the `update` call is not inside `try`/`catch`. An exception it raises therefore leaves the handler (`Response.Uncaught`); it is not turned into a 404 error.
- **Negative ids are not rejected.** `absint` maps a negative id to its absolute value, so `GET generators/-5` looks up generator 5; only an id whose `absint` is 0 is "invalid".
- **Required strings must be truthy, not just non-empty.** Create rejects a falsy required field, so a name or charset of `"0"` is refused like an empty one.
- **Update checks only that counts are numeric.** On update, `chunks` and `chunk_length` only have to be numeric, so 0 passes. On create they must be non-zero.

## Model

| member | source | states |
|---|---|---|
| `GeneratorsApi.Generators.constructor` | includes/api/v1/Generators.php:36-39 | the controller keeps the general plugin options it is given as its settings |
| `GeneratorsApi.Generators.GetGenerators` | includes/api/v1/Generators.php:120-153 | gate '006' off: route-disabled error and no repository call; otherwise `findAll` is called; an exception gives a 404 data error carrying its message; an empty result gives 'No Generators available'; otherwise a 200 list with exactly as many entries, entry i being the DTO of generator i |
| `GeneratorsApi.Generators.GetGenerator` | includes/api/v1/Generators.php:162-201 | gate '007' off: route-disabled error, no call; absint of the id 0: 'Generator ID is invalid.' and `find` not called; otherwise `find(id)` with id >= 1, and its exception message, the not-found message naming the id, or the record's DTO; every error is code lmfwc_rest_data_error, status 404 |
| `GeneratorsApi.Generators.CreateGenerator` | includes/api/v1/Generators.php:210-292 | gate '008' off: route-disabled error, no call; a falsy name, charset, chunks or chunk_length (checked in that order) gives its missing-field message with no insert; otherwise `insert` receives the nine-field array and its exception, falsy result or record becomes the error, 'could not be added' or the DTO |
| `GeneratorsApi.Generators.UpdateGenerator` | includes/api/v1/Generators.php:301-392 | gate '009' off: route-disabled error, no call; then a zero or missing id, then a non-JSON or falsy body, then name, charset (present with length <= 0), chunks, chunk_length, times_activated_max (present and not numeric), each with its own message and no call; otherwise `update(id, body as array)`, whose exception escapes, whose falsy result gives 'The generator could not be updated.', and whose record gives the DTO |
| `GeneratorsApi.InsertFields` | includes/api/v1/Generators.php:216-226 | exactly nine keys; an unset key becomes null; a set string field is `sanitize_text_field` of the value; a set numeric field is `absint` of the value, so null or an integer >= 0 |
| `GeneratorsApi.GeneratorData` | includes/api/v1/Generators.php:401-419 | the DTO's keys are exactly the fourteen names id … updated_by in the source's order |
| `GeneratorsApi.GeneratorDataFields` | includes/api/v1/Generators.php:403-418 | each DTO key holds the value of the matching getter |
| `GeneratorsProperties.GeneratorDataRoundTrip` | includes/api/v1/Generators.php:401-419 | reading the fourteen keys back out of the DTO rebuilds the generator: the mapping loses nothing |
| `Php.ArrayCast` | includes/api/v1/Generators.php:336 | `(array)` of an object is its properties, of an array the array itself, of a list of n elements exactly n keys, the numerals "0" … of 0..n-1, each holding its element; of null the empty array; of another scalar a one-element array under "0" |
| `Decimal.ParseNatOfNatToString` | includes/api/v1/Generators.php:192-195 | the `%d` rendering of the id parses back to the id |
| `GeneratorsProperties.NotFoundMessageNamesId` | includes/api/v1/Generators.php:189-197 | two ids give the same not-found message only if they are equal |
| `GeneratorsProperties.NegativeIdReadsAbsoluteValue` | includes/api/v1/Generators.php:168-180 | an id parameter of -n (n >= 1) makes the handler call `find(n)` |
| `GeneratorsProperties.ReadBackAfterCreate` | includes/api/v1/Generators.php:178-200 | if `find` yields the record `insert` returned, GET returns the same DTO that POST returned |
| `GeneratorsProperties.CreateReportsFirstFalsyField` | includes/api/v1/Generators.php:228-258 | with the route on, the first required field in the list name, charset, chunks, chunk_length whose value is falsy decides the message, whatever the later fields hold, and insert is not called |
| `GeneratorsProperties.CreateInsertsIffRequiredTruthy` | includes/api/v1/Generators.php:228-274 | insert is called if and only if the route is on and all four required fields are truthy, and then with the nine-field array |
| `GeneratorsProperties.CreateInsertArguments` | includes/api/v1/Generators.php:218-274 | whenever insert is called, name and charset are strings other than "" and "0", chunks and chunk_length are integers >= 1, and times_activated_max and expires_in are null or >= 0 |
| `GeneratorsProperties.CreateRejectsZeroChunks` | includes/api/v1/Generators.php:220-250 | a chunk count whose absint is 0 never reaches insert |
| `GeneratorsProperties.CreateRejectsEmptyArrayChunks` | includes/api/v1/Generators.php:220-250 | with a truthy name and charset, a chunk count posted as an empty JSON object (an empty array, whose absint is 0) gives 'The Generator chunks is missing from the request.' and no insert |
| `GeneratorsProperties.UpdateReportsFirstFailingCheck` | includes/api/v1/Generators.php:338-378 | once the id and body are accepted, the first failing check in the list name, charset, chunks, chunk_length, times_activated_max decides the message, and update is not called |
| `GeneratorsProperties.UpdateCalledIffChecksPass` | includes/api/v1/Generators.php:311-381 | update is called if and only if the route is on, the id is non-zero, the body is truthy and all five field checks pass, and then with the id and the body cast to an array |
| `GeneratorsProperties.UpdateUncheckedKeysPass` | includes/api/v1/Generators.php:336-381 | a body naming none of the five checked fields always reaches update: absent keys are never checked |
| `GeneratorsProperties.NotUpdatedIffUpdateFalsy` | includes/api/v1/Generators.php:381-391 | 'The generator could not be updated.' is returned exactly when update was called and yielded nothing |
| `GeneratorsProperties.UpdateAcceptsZeroChunks` | includes/api/v1/Generators.php:354-360 | a body `{chunks: 0}` passes the checks and reaches update, unlike on create |
| `ProductManager.InventoryManagementTab` | includes/ProductManager.php:40-56 | the result has the input's keys plus 'license_manager_tab'; that entry has target 'license_manager_product_data', class ['show_if_simple'], priority 21 and label 'Licenses'; every other entry is unchanged |
| `ProductManager.InventoryManagementTabIdempotent` | includes/ProductManager.php:48-55 | adding the tab twice gives the same tabs as adding it once |
| `ProductManager.ProductFlags` | includes/ProductManager.php:160-200 | exactly the four meta keys; the licensed and use-stock flags are 0/1 and 1 exactly when their key was posted; the use-generator flag is 1 exactly when its key was posted and the assigned generator is truthy; the assigned generator is `intval` of the posted value (null when absent) |
| `ProductManager.SavedMeta` | includes/ProductManager.php:155-201 | a post that is not a product keeps its meta; a product post gains exactly the four meta keys; every other key keeps its value |
| `ProductManager.SavePostIdempotent` | includes/ProductManager.php:155-201 | saving the same form twice leaves the same meta as saving it once |
| `ProductManager.NoGeneratorMeansNoGeneratedLicenses` | includes/ProductManager.php:175-200 | for a product posted without a truthy generator, the use-generator flag is saved as 0 whatever else was posted, and the assigned generator as `intval` of the posted value |
| `ProductManager.SaveCheckbox` | includes/ProductManager.php:160-172 | writes 1 under the flag's key when its checkbox was posted, else 0, and touches nothing else |
| `ProductManager.SaveUseGenerator` | includes/ProductManager.php:174-193 | writes the use-generator flag (1 only with a truthy assigned generator), and sets the `_lima_error` transient to error 2 exactly when the box was ticked without a generator |
| `ProductManager.SavePost` | includes/ProductManager.php:155-201 | without post_type 'product' nothing is written; otherwise the post's meta becomes `SavedMeta` of its old meta, other posts are untouched, and the transient store changes exactly when the box was ticked without a generator |

## Left out

- `register_routes` and the `ProductManager` constructor are left out. They only register WordPress routes and hooks.
- `inventoryManagementPanel` and `styleInventoryManagement` are left out. They echo HTML and call `Database::*`, `woocommerce_wp_*` and `apply_filters`, whose code is not part of this model.
- `assets/js/script.js` is left out. It is browser I/O: AJAX, the DOM, the clipboard and timers.
- The generator repository, the generator resource model and the `RestController` base class are not part of this model. Their stand-ins:
  - repository results are inputs;
  - getters are the fields of `Generator`;
  - `isRouteEnabled` is a lookup that treats a missing code as disabled;
  - `routeDisabledError()` is the opaque `RouteDisabled` response;
  - `response(true, data, 200, route)` is `Success(data, 200, route)`;
  - `isJson` is opaque.
- `get_option` is not modelled: the constructor receives the option's array view as a map from route codes to booleans.
- `json_decode`, `sanitize_text_field`, and the string cases of `intval` and `is_numeric` are opaque functions. The model assumes nothing about them.
- `__()` translation is not modelled: messages are the source's English strings.
- The 45-second expiry of the `_lima_error` transient is not modelled.
- The request and `$_POST` are parameters, and `savePost`'s post id is a parameter. `global $post` is read only by the `get_post_meta` call in `inventoryManagementTab` that is not modelled (see below), so no member takes it. Authentication, timestamps and actor ids come from the repository and are not modelled.
- Floating-point values are not in the value domain.
- `Php.Value`: integers are unbounded; PHP's 64-bit `int` is not modelled. In PHP `absint(PHP_INT_MIN)` yields a float, while the model folds `-9223372036854775808` to `9223372036854775808`, so `GetGenerator` would call `find` with an id PHP cannot produce and print it in the not-found message.
- `Php.Value`: array keys are strings. An array with integer keys other than 0..n-1 is a string-keyed array `Arr` whose keys are the numerals.
- `Php.NoStrLen`: `strlen` of an array or an object is treated as `<= 0` (PHP 7 returns null with a warning). PHP 8 would throw instead.
- `ProductManager.IsProductPost` models PHP's loose `!=` against 'product' for string values only. `$_POST` holds strings and arrays, and any non-string `post_type` counts as not a product.
- `ProductManager.InventoryManagementTab` models the tabs as a map, so the position of a newly added key in PHP's ordered array is not modelled.
- The unused `get_post_meta` call in `inventoryManagementTab` (ProductManager.php:44-46) is not modelled: its empty `if` has no effect.
- `ProductManager.SavePost` writes through `SaveCheckbox` and `SaveUseGenerator`, one per checkbox block of the source. The order of individual `update_post_meta` calls is not observable in the model.
