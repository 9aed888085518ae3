# Rental orders and Tinkoff payments, modelled in Dafny

This project models the order-processing core of a Django rental service that takes payment through
the Tinkoff acquiring API, either by card (two-stage: the amount is held and confirmed later) or
through the Faster Payments System (SBP, single-stage, paid by QR code).

A rental order moves through the nineteen statuses of `Order.Status`. It does so only through
*pipes*: each pipe admits a fixed list of statuses, saves new statuses, sends notices, calls the
gateway, and either hands the order to the next pipe or stops (by finishing or by raising).

- The *pipeline builder* chains the three processing stages in this order: checking that
  documents exist, verifying them, confirming the order. A Celery task can enter this chain at any
  stage.
- Separate pipes cancel an order, complete it, and re-initialise an expired or rejected payment
  session.
- Tinkoff's notifications start the chain (AUTHORIZED for card, CONFIRMED for SBP) or set a final
  status (REJECTED, DEADLINE_EXPIRED).
- Two periodic sweeps expire stale payment sessions and activate booked orders whose rental has
  begun.
- The API's order-creation service validates the request and holds the rental period. It then
  creates the order and its first payment session in one transaction, and releases the hold.

## How the model is organised

- **One module per source file.** Each pure part (enums, the `TinkoffPaymentData` record, the
  payment-initialisation data builder and initialisers) is a datatype with functions over it.
- **Mutable entities are classes.** An `Order` has a `status` the pipes set in place. A `Pipe` has
  `next` and `result`. A `Pipeline` owns a list of pipes and a terminator. The builder's map holds
  the three shared stage pipes. The API client owns the session it opens.
- **The database is a world object.** `Storage.Db` holds the saved orders, the payment sessions
  keyed by payment id, the temporary holds, the primary-key counters and an ordered record (`trace`)
  of everything observable that the core does:
  - a status saved;
  - a notice sent;
  - a verification run;
  - a gateway request made;
  - a session deleted or saved;
  - a Celery task enqueued;
  - a simple pipe's action;
  - an error logged.
- **Every pipe is two things:**
  - `Effect`, a pure function giving the record it appends, how it ends, what it stores as its
    result, and whether it hands the order on;
  - `Invoke`, an imperative method proved to perform exactly that effect (`PipeCore.Performed`).
- **Pipelines have a spec and a walk.** `Pipelines.RunChain` composes effects. `Pipeline.Invoke`
  follows the `next` links with a loop and is proved equal to `RunChain` over its pipes.
- **Outside systems are parameters.** The Tinkoff gateway is a function from request to response.
  Document verification, the clock ("now", integer microseconds), the settings, the client's phone
  and the order text are fields of `PipeCore.Oracle`.

Three behaviours of the code differ from what a reader might expect. The model follows the code
in each case.

- **Invalid request data when creating an order.** `__exit__` releases the hold through
  `release_period` (apps/rent/services/create_order_service_for_api.py:40-43 and 87-90), but it
  does not run here. Validation raises inside `__enter__` before any hold is booked, and Python
  runs no `__exit__` after a failed `__enter__`. So nothing is booked and nothing is released.
- **Cancelable statuses.** The manager's cancel endpoint in apps/rent/views/openapi_schema.py:62-78
  lists eight statuses from which an order can be cancelled. The pipe's own list allows ten.
- **`Order.is_created`.** It is true exactly when the order has NO primary key yet, the reverse of
  what the name suggests.

## Model

| member | source | states |
|---|---|---|
| OrderModels.StatusFromValue | apps/rent/models.py:15-36 | a stored status string parses only to the status whose value it is; a string no status has parses to None |
| OrderModels.StatusValueRoundTrip | apps/rent/models.py:15-36 | every status's stored value parses back to that status |
| OrderModels.StatusListed | apps/rent/models.py:15-36 | every status appears in the catalogue of choices |
| OrderModels.StatusCatalogue | apps/rent/models.py:15-43 | there are 19 statuses with pairwise distinct values, each fits the 23-character column, and PAYMENT_SESSION_EXPIRED fills it exactly |
| OrderModels.Order.constructor | apps/rent/models.py:38-85 | a new order carries the given fields and starts in status NEW |
| OrderModels.Order.IsCreated | apps/rent/models.py:108-110 | true exactly when the order has no primary key yet |
| Storage.SavedOrdersAreNotCreated | apps/rent/models.py:108-110 | in a consistent database no saved order counts as created, and each has a key below the next one to be assigned |
| OrderModels.Order.IsSelfPickup | apps/rent/models.py:112-114 | true exactly when the pickup district is the self-pickup point |
| OrderModels.Order.IsSelfReturn | apps/rent/models.py:116-118 | true exactly when the return district is the self-pickup point |
| PaymentEnums.GeneratedValues | apps/tinkoff_payments/services/payment_initialization/enums.py:15-47 | the values generated from the member names are "card", "sbp", "payment_url", "qr_url", "qr_image" |
| PaymentEnums.StrategyChoices | apps/tinkoff_payments/services/payment_initialization/enums.py:27-29 | one (value, name) choice per strategy, in declaration order |
| PaymentEnums.PayloadTypeChoices | apps/tinkoff_payments/services/payment_initialization/enums.py:49-51 | one (value, name) choice per payload type, in declaration order |
| PaymentEnums.StrategyChoicesRoundTrip | apps/tinkoff_payments/services/payment_initialization/enums.py:27-29 | each choice's value looks up its own strategy |
| PaymentEnums.PayloadTypeChoicesRoundTrip | apps/tinkoff_payments/services/payment_initialization/enums.py:49-51 | each choice's value looks up its own payload type |
| PaymentEnums.StrategyFromValue | apps/tinkoff_payments/services/payment_initialization/enums.py:15-25 | a string parses only to the strategy whose value it is, and to None when no strategy has it |
| PaymentEnums.PayloadTypeFromValue | apps/tinkoff_payments/services/payment_initialization/enums.py:32-47 | a string parses only to the payload type whose value it is, and to None when none has it |
| PaymentEnums.StrategyValueRoundTrip | apps/tinkoff_payments/services/payment_initialization/enums.py:15-25 | every strategy's value parses back to it |
| PaymentEnums.PayloadTypeValueRoundTrip | apps/tinkoff_payments/services/payment_initialization/enums.py:32-47 | every payload type's value parses back to it |
| PaymentModels.PaymentSessionExpiredAt | apps/tinkoff_payments/models.py:58-62 | the expiry instant lies exactly one session lifetime after creation |
| PaymentModels.PaymentSessionIsExpired | apps/tinkoff_payments/models.py:64-67 | a session is expired from its expiry instant on, inclusive |
| PaymentModels.ExpiryIsMonotone | apps/tinkoff_payments/models.py:64-67 | once a session is expired it stays expired at every later instant |
| PaymentModels.DefaultLifetimeBoundary | apps/tinkoff_payments/migrations/0004_alter_tinkoffpaymentdata_payment_session_lifetime.py:17 | with the default lifetime of 7200 seconds, a session is live one microsecond before that point and expired at it |
| PaymentModels.ChoiceValuesFitColumns | apps/tinkoff_payments/models.py:32-41 | every strategy and payload-type value fits its column, and "payment_url" fills its column exactly |
| PaymentModels.StorableFromMembers | apps/tinkoff_payments/models.py:27-41 | a row built from enum members is storable exactly when its payment id fits the 23-character primary key |
| Stages.StageValues | apps/rent/services/order_pipeline/stages.py:10-18 | the three stage values are the lower-cased member names |
| Stages.StageIndex | apps/rent/services/order_pipeline/stages.py:16-18 | each stage sits at its index in declaration order |
| Stages.StageFromValue | apps/rent/services/order_pipeline/stages.py:7-18 | a string parses only to the stage whose value it is, and to None otherwise |
| Stages.StageValueRoundTrip | apps/rent/services/order_pipeline/stages.py:7-18 | every stage's value parses back to it |
| Gateway.CheckResponse | apps/tinkoff_payments/services/payment_initialization/initializers/base.py:47-48 | a response is accepted exactly when its status is 200 and its truthy "Success" flag is present; any other status is a TinkoffResponseException carrying the response |
| Gateway.PaymentIdRequest | apps/tinkoff_payments/services/payment_confirmation_service.py:27-31 | the confirm and cancel services post a body naming only the payment id to their route |
| ApiClient.HasRequestBodyAsWritten | utils/api_tools/base_api_client.py:199-209 | as written (the list at line 20), a method may carry a body exactly when, lower-cased, it is post, put or putch |
| ApiClient.PatchBodyRefusedAsWritten | utils/api_tools/base_api_client.py:20 | as written, the body-method list admits "putch" and refuses PATCH in either case |
| ApiClient.HasRequestBody | utils/api_tools/base_api_client.py:199-209 | a method may carry a body exactly when, lower-cased, it is post, put or patch |
| ApiClient.BodyRulesAgreeElsewhere | utils/api_tools/base_api_client.py:199-209 | the written and the corrected lists agree on every method except patch and putch |
| ApiClient.StripLeadingSlash | utils/api_tools/base_api_client.py:211-228 | drops exactly one leading slash when there is one |
| ApiClient.StripTrailingSlash | utils/api_tools/base_api_client.py:211-228 | drops exactly one trailing slash when there is one |
| ApiClient.FullUrl | utils/api_tools/base_api_client.py:211-228 | the URL is the stripped base, one slash, then the stripped postfix |
| ApiClient.FullUrlIgnoresSeamSlashes | utils/api_tools/base_api_client.py:211-228 | a slash at the end of the base or the start of the postfix makes no difference to the URL |
| ApiClient.NoBodyMessage | utils/api_tools/base_api_client.py:98-102 | the error for a body on a body-less method opens with the HTTP-method prefix |
| ApiClient.BaseApiClient.constructor | utils/api_tools/base_api_client.py:22-30 | a new client has its base URL and settings, no open session, and has sent nothing |
| ApiClient.BaseApiClient.IsUnauthorizedRequest | utils/api_tools/base_api_client.py:187-197 | a response counts as unauthorized exactly when the client checks for it and the status is 401 |
| ApiClient.BaseApiClient.SendOnce | utils/api_tools/base_api_client.py:78-137 | data for a method outside the list as written (post, put, putch; so PATCH too) is refused with a ValueError and nothing sent; otherwise the default data is merged into the given data and one request goes to the full URL, through the caller's session, else the client's own, else a one-time session that is then closed |
| ApiClient.BaseApiClient.Request | utils/api_tools/base_api_client.py:36-76 | data for a method outside the list as written is refused before any send; any reply other than unauthorized is returned after exactly one send, recorded with the method, the base URL joined to the postfix, the data, the format and the session chosen (the caller's, else the open one, else a new one-time session that is then closed); an unauthorized first reply keeps the earlier sends, causes one re-authorisation and one resend to that URL with the same method, format and (already extended) data dict, through the same session or the next one-time session, and its reply is returned |
| ApiClient.BaseApiClient.Enter | utils/api_tools/base_api_client.py:230-236 | entering opens a new client session and returns the client itself |
| ApiClient.BaseApiClient.Exit | utils/api_tools/base_api_client.py:238-242 | leaving closes the open session, and fails when none is open |
| PaymentInit.PaymentTypeFor | apps/tinkoff_payments/services/payment_initialization/data_builders/advance_payment_data_builder.py:26-29 | card payments are two-stage, SBP payments single-stage |
| PaymentInit.WithoutMicroseconds | apps/tinkoff_payments/services/payment_initialization/data_builders/advance_payment_data_builder.py:43-51 | the instant is rounded down to a whole second, less than a second earlier |
| PaymentInit.BuildAdvancePaymentData | apps/tinkoff_payments/services/payment_initialization/data_builders/advance_payment_data_builder.py:31-90 | the init data asks for the advance amount for the order's id, uses one return URL for success and failure on the order's page, is due one lifetime after the whole second of now, and has a one-line prepayment receipt |
| Storage.SwapKeepsSessionsConsistent | apps/tinkoff_payments/models.py:19-29 | replacing an order's session by a new one for the same order keeps each session under its payment id, referring to an already assigned order key, and one per order |
| Storage.SaveNewKeepsSessionsConsistent | apps/tinkoff_payments/models.py:19-29 | adding a session for a just-created order keeps each session under its payment id, referring to an already assigned order key, and one per order |
| Text.ParseInt | apps/tinkoff_payments/services/payment_initialization/initializers/base.py:64 | what `int()` accepts is non-empty once stripped, and a negative reading starts with a minus sign |
| Text.ParseIntOfDecimal | apps/tinkoff_payments/services/payment_initialization/initializers/base.py:64 | `int(str(i)) == i` for every integer |
| Text.ParseIntIgnoresSurroundingSpace | apps/tinkoff_payments/services/payment_initialization/initializers/base.py:64 | white space before and after a text does not change what `int()` reads |
| Text.ParseIntIgnoresUnderscores | apps/tinkoff_payments/services/payment_initialization/initializers/base.py:64 | digits with single underscores between them read as the digits without them |
| Text.ParseIntRefusesDoubledUnderscore | apps/tinkoff_payments/services/payment_initialization/initializers/base.py:64 | a text with two underscores in a row is refused |
| PaymentInit.OrderIdReadsBack | apps/tinkoff_payments/services/payment_initialization/data_builders/advance_payment_data_builder.py:55 | the OrderId sent to the gateway parses back to the order's primary key |
| PaymentInit.OrderIdsDiffer | apps/tinkoff_payments/services/payment_initialization/data_builders/advance_payment_data_builder.py:55 | distinct orders send distinct OrderIds |
| PaymentInit.TextField | apps/tinkoff_payments/services/payment_initialization/initializers/base.py:52-70 | a response field is read as text exactly when it is present as a string; a missing key is a KeyError |
| PaymentInit.IntField | apps/tinkoff_payments/services/payment_initialization/initializers/base.py:52-70 | `int()` of a response field: an integer is taken as is, a string is accepted exactly when `int()` accepts it (white space around a signed decimal with single underscores) and then read as `int()` reads it, a missing key is a KeyError |
| PaymentInit.CardInit | apps/tinkoff_payments/services/payment_initialization/initializers/base.py:31-50 | one Init request is sent, and its response is returned exactly when the gateway accepts it |
| PaymentInit.CardDataFromResponse | apps/tinkoff_payments/services/payment_initialization/initializers/base.py:52-70 | a card result has the payment URL as payload and the response's payment id and order id |
| PaymentInit.SbpInit | apps/tinkoff_payments/services/payment_initialization/initializers/sbp.py:59-98 | after an accepted Init carrying a PaymentId, a GetQr request for that payment follows; the QR response is returned exactly when it too is accepted |
| PaymentInit.SbpPayloadType | apps/tinkoff_payments/services/payment_initialization/initializers/sbp.py:26-29 | an image QR yields a qr_image payload, a payload QR a qr_url one |
| PaymentInit.SbpDataFromResponse | apps/tinkoff_payments/services/payment_initialization/initializers/sbp.py:100-118 | an SBP result has the QR data as payload, the payload type of the QR kind, and the response's ids |
| PaymentInit.TinkoffSbpInitializer.constructor | apps/tinkoff_payments/services/payment_initialization/initializers/sbp.py:31-42 | a new initializer holds the given QR kind |
| PaymentInit.TinkoffSbpInitializer.SetQrDataType | apps/tinkoff_payments/services/payment_initialization/initializers/sbp.py:50-57 | a member of the QR enum replaces the kind; any other value raises ValueError and keeps the old kind |
| PaymentInit.TinkoffSbpInitializer.Init | apps/tinkoff_payments/services/payment_initialization/initializers/sbp.py:59-91 | the initializer performs the SBP flow with the QR kind it currently holds |
| PaymentInit.TinkoffSbpInitializer.GetDataFromResponse | apps/tinkoff_payments/services/payment_initialization/initializers/sbp.py:100-118 | the result is read with the QR kind the initializer holds |
| PaymentInit.GetInitializer | apps/tinkoff_payments/services/payment_initialization/payment_initializer_service.py:71-81 | a known strategy has an initializer (card for card; SBP asking for a payload QR); any other string raises |
| PaymentInit.ServiceInit | apps/tinkoff_payments/services/payment_initialization/payment_initializer_service.py:45-69 | an unknown strategy sends nothing and fails; otherwise the first request is Init with the advance data, the requests are those of the card initializer or of the SBP one asking for a payload QR code, a refused request is a gateway error, and a success is exactly the DTO that initializer's mapper reads from its last response, whose PaymentId and OrderId it carries, with the requested strategy, the configured lifetime and its payload type |
| PipeCore.Pipe.constructor | apps/rent/services/order_pipeline/pipes/base.py:15-19 | a new pipe has no next pipe and no result |
| PipeCore.Pipe.SetNext | apps/rent/services/order_pipeline/pipes/base.py:30-38 | the next pipe is the one given (and likewise for simple pipes, utils/pipelines/simple_pipe.py:41-49) |
| PipeCore.Refused | apps/rent/services/order_pipeline/exceptions.py:19-25 | a refused status raises InvalidOrderStatus for that order and pipe, and records, stores and forwards nothing |
| PipeCore.Format | apps/rent/services/order_pipeline/exceptions.py:21-25 | a message template formats exactly when every placeholder it names has a value |
| PipeCore.StatusListRepr | apps/rent/services/order_pipeline/exceptions.py:24 | the allowed statuses are shown as a Python list |
| PipeCore.InvalidStatusMessage | apps/rent/services/order_pipeline/exceptions.py:19-37 | the message gives the order number, the current status value and the allowed statuses, in the template's words |
| PipeCore.NoResultMessage | apps/rent/services/order_pipeline/exceptions.py:46-63 | the message names the stage that stored no result, in the template's words |
| PipeCore.ProcessMessage | utils/pipelines/exceptions.py:14-18 | the message is the fixed prefix, the failing step's class name, a newline and the details label followed by the details |
| PipeCore.ProcessMessageDetails | utils/pipelines/exceptions.py:14-18 | the details can be read back: two messages for one step are equal only when their details are |
| SimplePipes.Effect | utils/pipelines/simple_pipe.py:33-39 | a simple pipe runs its action and forwards, unless the action raises, which becomes a PipeProcessException |
| SimplePipes.Invoke | utils/pipelines/simple_pipe.py:26-39 | invoking a simple pipe performs its effect |
| ExistsDocumentsCheck.IsValidStatus | apps/rent/services/order_pipeline/pipes/checking_exists_documents_pipe.py:69-84 | admits exactly AWAIT_PAYMENT and AWAIT_RESERVATION |
| ExistsDocumentsCheck.PassedStatus | apps/rent/services/order_pipeline/pipes/checking_exists_documents_pipe.py:57-60 | a card order passes to RESERVATION_SUCCESS, any other to PAYMENT_SUCCESS |
| ExistsDocumentsCheck.Effect | apps/rent/services/order_pipeline/pipes/checking_exists_documents_pipe.py:41-67 | a refused status raises and does nothing; an order with a manager is saved WITHOUT_DOCS, the manager notice is sent and the pipe raises; an order without a session raises; otherwise the passed status is saved and the order forwarded |
| ExistsDocumentsCheck.Invoke | apps/rent/services/order_pipeline/pipes/checking_exists_documents_pipe.py:34-67 | invoking the pipe performs its effect on the order's status at the call |
| DocumentsVerification.IsValidStatus | apps/rent/services/order_pipeline/pipes/verify_documents_pipe.py:75-84 | admits exactly PAYMENT_SUCCESS, RESERVATION_SUCCESS, WITHOUT_DOCS and VERIFY_FAILED |
| DocumentsVerification.FailureDetails | apps/rent/services/order_pipeline/pipes/verify_documents_pipe.py:51-65 | there are failure details exactly when verification did not return success |
| DocumentsVerification.Effect | apps/rent/services/order_pipeline/pipes/verify_documents_pipe.py:40-73 | ON_APPROVAL is saved and verification runs; success saves APPROVAL_SUCCESS and forwards; a failure or a raised error saves VERIFY_FAILED, notifies the client and raises with the details |
| DocumentsVerification.HandleVerifyFailed | apps/rent/services/order_pipeline/pipes/verify_documents_pipe.py:92-100 | the order ends VERIFY_FAILED with the failure record appended |
| DocumentsVerification.Invoke | apps/rent/services/order_pipeline/pipes/verify_documents_pipe.py:33-73 | invoking the pipe performs its effect |
| DocumentsVerification.VerifyAdmitted | apps/rent/services/order_pipeline/pipes/verify_documents_pipe.py:45-73 | for an admitted status, the pipe performs its effect |
| OrderConfirmation.IsValidStatus | apps/rent/services/order_pipeline/pipes/confirm_order_pipe.py:86-95 | admits exactly APPROVAL_SUCCESS, WITHOUT_DOCS, VERIFY_FAILED and CONFIRM_PAYMENT_FAILED |
| OrderConfirmation.Effect | apps/rent/services/order_pipeline/pipes/confirm_order_pipe.py:40-60 | a card payment is first confirmed with the gateway, and a refused confirmation saves CONFIRM_PAYMENT_FAILED and raises; otherwise the order is saved BOOKED, stored, notified and forwarded |
| OrderConfirmation.ManualConfirmPayment | apps/rent/services/order_pipeline/pipes/confirm_order_pipe.py:62-84 | AWAIT_CONFIRM_PAYMENT is saved and Confirm sent; the call fails exactly when the gateway refuses, leaving CONFIRM_PAYMENT_FAILED |
| OrderConfirmation.Invoke | apps/rent/services/order_pipeline/pipes/confirm_order_pipe.py:33-60 | invoking the pipe performs its effect |
| OrderConfirmation.ConfirmAndBook | apps/rent/services/order_pipeline/pipes/confirm_order_pipe.py:45-60 | for an admitted order with a session, the pipe performs its effect |
| OrderConfirmation.Book | apps/rent/services/order_pipeline/pipes/confirm_order_pipe.py:52-57 | the order ends BOOKED and stored as the result, with the booking record appended |
| OrderCancellation.IsValidStatus | apps/rent/services/order_pipeline/pipes/cancel_order_pipe.py:83-92 | admits exactly the ten statuses of its list, i.e. all but the nine final or in-flight ones |
| OrderCancellation.ChosenSender | apps/rent/services/order_pipeline/pipes/cancel_order_pipe.py:36-49 | the given notice sender is used, else the order-canceled one |
| OrderCancellation.NewCancelOrderPipe | apps/rent/services/order_pipeline/pipes/cancel_order_pipe.py:38-49 | a new cancel pipe with the chosen sender, no next pipe and no result |
| OrderCancellation.Effect | apps/rent/services/order_pipeline/pipes/cancel_order_pipe.py:61-75 | the payment is cancelled with the gateway first; a refusal raises before any status is saved; success saves CANCELED and sends the notice; the pipe never forwards |
| OrderCancellation.Invoke | apps/rent/services/order_pipeline/pipes/cancel_order_pipe.py:51-75 | invoking the pipe performs its effect |
| OrderCancellation.CancelAdmitted | apps/rent/services/order_pipeline/pipes/cancel_order_pipe.py:66-75 | for an admitted status, the pipe performs its effect |
| OrderCancellation.CancelPaid | apps/rent/services/order_pipeline/pipes/cancel_order_pipe.py:68-75 | for an admitted order with a session, the pipe performs its effect |
| OrderCancellation.Commit | apps/rent/services/order_pipeline/pipes/cancel_order_pipe.py:70-75 | the order ends CANCELED and stored, with the status and the notice recorded and the sessions untouched |
| OrderCompletion.IsValidStatus | apps/rent/services/order_pipeline/pipes/complete_order_pipe.py:43-52 | admits exactly ACTIVE |
| OrderCompletion.Effect | apps/rent/services/order_pipeline/pipes/complete_order_pipe.py:33-41 | an active order is saved COMPLETED and stored; the pipe never forwards |
| OrderCompletion.Invoke | apps/rent/services/order_pipeline/pipes/complete_order_pipe.py:26-41 | invoking the pipe performs its effect |
| PaymentSessionReinit.IsValidStatus | apps/rent/services/order_pipeline/pipes/reinit_payment_session_pipe.py:105-114 | admits exactly REJECTED, REINIT_FAILED and PAYMENT_SESSION_EXPIRED |
| PaymentSessionReinit.SessionFromDto | apps/rent/services/order_pipeline/pipes/reinit_payment_session_pipe.py:94-103 | the new row carries the result's ids, payload, strategy, payload type and lifetime, created now; it is live now exactly when its lifetime is positive |
| PaymentSessionReinit.AwaitingStatus | apps/rent/services/order_pipeline/pipes/reinit_payment_session_pipe.py:84-88 | a card session awaits reservation, an SBP session awaits payment |
| PaymentSessionReinit.Effect | apps/rent/services/order_pipeline/pipes/reinit_payment_session_pipe.py:48-92 | ON_REINIT is saved and the payment service runs with the old strategy; a failure saves REINIT_FAILED and raises; success replaces the old session with the new one, saves the awaiting status and stores the order with its new session; the pipe never forwards |
| PaymentSessionReinit.SwapSession | apps/rent/services/order_pipeline/pipes/reinit_payment_session_pipe.py:76-90 | the old session is deleted, the new one saved under its own payment id, and the awaiting status set; a consistent database stays consistent when the new session is for the old one's order |
| PaymentSessionReinit.Invoke | apps/rent/services/order_pipeline/pipes/reinit_payment_session_pipe.py:41-92 | invoking the pipe performs its effect; a consistent database stays consistent when the order's session is the stored one and the gateway reports the same order |
| PaymentSessionReinit.Reinitialise | apps/rent/services/order_pipeline/pipes/reinit_payment_session_pipe.py:56-74 | for an admitted status, the pipe performs its effect |
| PaymentSessionReinit.ReinitialisePaid | apps/rent/services/order_pipeline/pipes/reinit_payment_session_pipe.py:59-92 | for an admitted order with a session, the pipe performs its effect |
| PaymentSessionReinit.Ask | apps/rent/services/order_pipeline/pipes/reinit_payment_session_pipe.py:56-70 | ON_REINIT is saved, then the service's requests are recorded |
| PaymentSessionReinit.InitFails | apps/rent/services/order_pipeline/pipes/reinit_payment_session_pipe.py:71-74 | when the service fails, the pipe performs its effect (REINIT_FAILED, raise) |
| PaymentSessionReinit.InitSucceeds | apps/rent/services/order_pipeline/pipes/reinit_payment_session_pipe.py:76-92 | when the service succeeds, the pipe performs its effect (session swapped) |
| PaymentSessionReinit.KeepsStrategy | apps/rent/services/order_pipeline/pipes/reinit_payment_session_pipe.py:70 | a successful reinitialisation keeps the old session's payment strategy |
| PaymentSessionReinit.NewSessionFromGateway | apps/rent/services/order_pipeline/pipes/reinit_payment_session_pipe.py:62-103 | the new session is stored under the PaymentId of the gateway's last answer and belongs to the order that answer's OrderId names |
| PaymentSessionReinit.FailureKeepsOldSession | apps/rent/services/order_pipeline/pipes/reinit_payment_session_pipe.py:71-74 | a failed reinitialisation leaves the order REINIT_FAILED and the sessions unchanged |
| PaymentSessionReinit.ReinitKeepsSessionsConsistent | apps/rent/services/order_pipeline/pipes/reinit_payment_session_pipe.py:48-92 | on every path of the pipe, sessions keyed by their payment id with one session per order stay so, provided the gateway reports the order of the old session |
| PaymentSessionReinit.SuccessSwapsSession | apps/rent/services/order_pipeline/pipes/reinit_payment_session_pipe.py:76-90 | a successful one replaces exactly the old session by the new and leaves the order awaiting payment or reservation |
| Pipelines.PipeName | apps/rent/services/order_pipeline/pipes/checking_exists_documents_pipe.py:28-32 | each order pipe is named by its own `get_pipe_name` override (the same override appears in the verify, confirm, cancel, complete and reinit pipes), not by the class name of the base method |
| Pipelines.GuardRefusesOutsideAllowed | apps/rent/services/order_pipeline/pipes/checking_exists_documents_pipe.py:43-44 | any order pipe given a status outside its list raises InvalidOrderStatus and has no effect |
| Pipelines.Step | utils/pipelines/pipeline.py:47-48 | invoking any pipe performs that pipe kind's effect |
| Pipelines.Pipeline.constructor | utils/pipelines/pipeline.py:14-18 | a new pipeline has no pipes and a fresh terminator |
| Pipelines.Pipeline.Pipe | utils/pipelines/pipeline.py:20-38 | the pipe is appended, linked from the previous last pipe, and linked to the terminator, with the chain kept wired |
| Pipelines.Pipeline.SetNext | utils/pipelines/pipeline.py:50-61 | the pipeline hands on to the given pipe by linking its terminator |
| Pipelines.Pipeline.Invoke | utils/pipelines/pipeline.py:40-48 | the record, status, sessions and outcome are those of the chain spec over the pipes; the pipeline hands on only when every pipe forwarded and a next pipe is set |
| Pipelines.Pipeline.Walk | utils/pipelines/pipeline.py:47-48 | following the `next` links from the first pipe performs the chain spec |
| Pipelines.TerminatorAddsNothing | utils/pipelines/pipeline.py:18 | a terminating pipe with no action does not change a run |
| Pipelines.TerminatedRun | utils/pipelines/pipeline.py:18 | the same for the terminator the pipeline creates |
| Pipelines.EmptyPipelineRunsTerminator | utils/pipelines/pipeline.py:47-48 | a pipeline without pipes records nothing and finishes |
| OrderPipelineBuilding.OrderPipeMap.constructor | apps/rent/services/order_pipeline/builder.py:29-33 | one fresh pipe per stage |
| OrderPipelineBuilding.OrderPipeMap.PipeFor | apps/rent/services/order_pipeline/builder.py:29-33 | each stage maps to its pipe |
| OrderPipelineBuilding.OrderPipeMap.StagePipes | apps/rent/services/order_pipeline/builder.py:51-62 | the pipes from the start stage to confirmation, in stage order |
| OrderPipelineBuilding.ChainLeavesSessions | apps/rent/services/order_pipeline/builder.py:51-62 | a chain of checking, verification and confirmation pipes, wherever it stops, records no session save or delete |
| OrderPipelineBuilding.StagePipesLeaveSessions | apps/rent/services/order_pipeline/builder.py:51-62 | the pipeline built from any stage leaves the payment sessions exactly as they were |
| OrderPipelineBuilding.StartStage | apps/rent/services/order_pipeline/builder.py:42-44 | a stage string is accepted exactly when it is a stage's value; any other fails the assertion with its message |
| OrderPipelineBuilding.EveryStageStarts | apps/rent/services/order_pipeline/builder.py:42-44 | every stage's value is accepted as that stage |
| OrderPipelineBuilding.OrderPipelineBuilder.constructor | apps/rent/services/order_pipeline/builder.py:35-46 | the builder holds the map and the start stage |
| OrderPipelineBuilding.OrderPipelineBuilder.Build | apps/rent/services/order_pipeline/builder.py:48-62 | a fresh, wired pipeline of the stage pipes from the start stage on |
| OrderPipelineBuilding.CheckingHandsOnToVerification | apps/rent/services/order_pipeline/pipes/checking_exists_documents_pipe.py:57-67 | whenever checking forwards, verification admits the status it saved |
| OrderPipelineBuilding.VerificationHandsOnToConfirmation | apps/rent/services/order_pipeline/pipes/verify_documents_pipe.py:67-73 | whenever verification forwards, confirmation admits the status it saved |
| OrderPipelineBuilding.SbpOrderIsBooked | apps/rent/services/order_pipeline/builder.py:55-60 | a paid SBP order without a manager and with verified documents goes through all three stages to BOOKED with no gateway call |
| OrderPipelineBuilding.CardOrderIsBooked | apps/rent/services/order_pipeline/builder.py:55-60 | a card order with verified documents whose confirmation the gateway accepts is booked after exactly this record |
| OrderPipelineBuilding.CardConfirmationFailureStops | apps/rent/services/order_pipeline/pipes/confirm_order_pipe.py:77-84 | when the gateway refuses confirmation, the statuses saved are RESERVATION_SUCCESS, ON_APPROVAL, APPROVAL_SUCCESS, AWAIT_CONFIRM_PAYMENT, CONFIRM_PAYMENT_FAILED and the confirm pipe raises |
| OrderPipelineBuilding.CardConfirmationFailureRun | apps/rent/services/order_pipeline/pipes/confirm_order_pipe.py:77-84 | the full seven-event record of that run |
| OrderPipelineBuilding.ManagerOrderStopsAtChecking | apps/rent/services/order_pipeline/pipes/checking_exists_documents_pipe.py:49-55 | an order with a manager stops at checking, saved WITHOUT_DOCS with the manager notified |
| OrderPipelineBuilding.VerificationFailureStops | apps/rent/services/order_pipeline/pipes/verify_documents_pipe.py:51-65 | failed verification stops the chain in the verify pipe after its failure record |
| OrderPipelineBuilding.RerunIsRefused | apps/rent/services/order_pipeline/pipes/checking_exists_documents_pipe.py:43-44 | running the full chain on an order checking does not admit records nothing and raises |
| OrderPipelineBuilding.ConfirmStageBooksSbpOrder | apps/rent/services/order_pipeline/builder.py:55-60 | entering at the confirm stage books an admitted SBP order directly |
| RentTasks.FindOrder | apps/rent/tasks.py:25-30 | finds a saved order with the id, or null exactly when there is none |
| RentTasks.FindSession | apps/rent/tasks.py:31 | finds the session of the order, or None exactly when it has none |
| RentTasks.TaskRecord | apps/rent/tasks.py:34-40 | the pipeline task's record is the chain's record, followed by a logged error exactly when the chain raised |
| RentTasks.OrderPipelineTask | apps/rent/tasks.py:16-40 | a missing order, a missing session or an unknown stage fail the Celery task with nothing done; otherwise the chain from the stage runs and a raise is logged; other orders are untouched; a run of the chain saves and deletes no payment session, so from a consistent database (Storage.Db.Valid) the task leaves a consistent one |
| RentTasks.RunFromStage | apps/rent/tasks.py:33 | an unknown stage fails with the builder's message and changes nothing; a known one runs the chain, and either way the payment sessions are left as they were |
| RentTasks.RunPipeline | apps/rent/tasks.py:33-35 | the built pipeline runs the chain from the start stage |
| RentTasks.InvokeLogged | apps/rent/tasks.py:34-40 | the pipeline's run is recorded, with its raise logged and swallowed |
| RentTasks.SweepChangesOnlyStartedBookings | apps/rent/tasks.py:51-54 | the sweep changes a status exactly when it is BOOKED and the rental has started, and then to ACTIVE |
| RentTasks.SweepIdempotent | apps/rent/tasks.py:51-54 | sweeping twice at one instant is sweeping once |
| RentTasks.OrderBookedToActive | apps/rent/tasks.py:43-54 | every saved order takes its swept status; from a consistent database (Storage.Db.Valid) it leaves a consistent one |
| PaymentTasks.SelectedIffExpired | apps/tinkoff_payments/tasks.py:31-47 | the bulk filter selects exactly the awaiting orders whose session is expired by the model's own rule |
| PaymentTasks.HandleExpiredPaymentSessions | apps/tinkoff_payments/tasks.py:17-51 | exactly the selected orders become PAYMENT_SESSION_EXPIRED, and the count (which the task logs and does not return) is the number of orders changed; from a consistent database (Storage.Db.Valid) it leaves a consistent one |
| Notifications.HandlerClass | apps/tinkoff_payments/services/notifications/handlers/factory.py:22-27 | only AUTHORIZED, CONFIRMED, REJECTED and DEADLINE_EXPIRED have a handler |
| Notifications.HandlerClassesDistinct | apps/tinkoff_payments/services/notifications/handlers/factory.py:22-27 | no two handled statuses share a handler, and six statuses have none |
| Notifications.Create | apps/tinkoff_payments/services/notifications/handlers/factory.py:29-42 | a new handler of the mapped class, or None for an unhandled status |
| Notifications.EnqueuedFor | apps/tinkoff_payments/services/notifications/handlers/authorized.py:28-37 | the checking task is enqueued exactly when the session is not of the skipped strategy and checking admits the order's status |
| Notifications.EnqueuedOrderPassesGuard | apps/tinkoff_payments/services/notifications/handlers/authorized.py:33-37 | an order handed to the pipeline is not refused by checking's status guard |
| Notifications.EnqueueChecking | apps/tinkoff_payments/services/notifications/handlers/authorized.py:21-37 | an unknown payment id does nothing; otherwise the session's order is found and enqueued as above, with no status written; from a consistent database (Storage.Db.Valid) it leaves a consistent one |
| Notifications.HandleAuthorized | apps/tinkoff_payments/services/notifications/handlers/authorized.py:14-37 | AUTHORIZED enqueues as above, skipping SBP sessions; from a consistent database (Storage.Db.Valid) it leaves a consistent one |
| Notifications.HandleConfirmed | apps/tinkoff_payments/services/notifications/handlers/confirmed.py:14-39 | CONFIRMED enqueues as above, skipping card sessions; from a consistent database (Storage.Db.Valid) it leaves a consistent one |
| Notifications.HandleRejected | apps/tinkoff_payments/services/notifications/handlers/rejected.py:10-22 | the notified order, if saved, becomes REJECTED whatever its status, and only that status save is recorded; no other order changes; from a consistent database (Storage.Db.Valid) it leaves a consistent one |
| Notifications.HandleDeadlineExpired | apps/tinkoff_payments/services/notifications/handlers/deadline_expired.py:10-18 | exactly the order of the session with the notified payment id becomes PAYMENT_SESSION_EXPIRED; from a consistent database (Storage.Db.Valid) it leaves a consistent one |
| CreateOrder.CreateOrderService.constructor | apps/rent/services/create_order_service_for_api.py:21-30 | the service holds the request and no hold yet |
| CreateOrder.CreateOrderService.BookPeriod | apps/rent/services/create_order_service_for_api.py:50-59 | a new hold over the requested period is booked under the next id; from a consistent database (Storage.Db.Valid) it leaves a consistent one |
| CreateOrder.CreateOrderService.Enter | apps/rent/services/create_order_service_for_api.py:32-38 | invalid data fails validation with no hold booked; valid data books the hold; from a consistent database (Storage.Db.Valid) it leaves a consistent one |
| CreateOrder.CreateOrderService.Exit | apps/rent/services/create_order_service_for_api.py:40-43 | the service's hold is released; from a consistent database (Storage.Db.Valid) it leaves a consistent one |
| CreateOrder.CreateOrderService.CreateOrderAndInitPayment | apps/rent/services/create_order_service_for_api.py:61-85 | the order is committed with its session exactly when the init pipe stores a result; a raise rolls everything back, and no result rolls back with the NoResult message naming the init pipe; from a consistent database it leaves a consistent one when the init pipe binds its session to the new order |
| CreateOrder.CreateWithinHold | apps/rent/services/create_order_service_for_api.py:32-43 | whatever happens, the holds end as they began; only a valid request whose session was initialised adds a (fresh) order; the database stays consistent when the init pipe binds its session to the new order |

## Left out

- `InitPaymentSessionPipe`, `TempBookedPeriodsService`, the period-availability check and `ClientDocumentsVerificationService` are not part of this model. Their outcomes are parameters: the init pipe's outcome per primary key and its `get_pipe_name()`, and the verification outcome in `PipeCore.Oracle`.
- The HTTP transport, Tinkoff's request signing (the Token) and the HTTP library are not modelled. The gateway is a function from request to response.
- Views, serializers, the OpenAPI descriptions, the admin and the Django settings module are left out. Settings used by the core are fields of `PaymentInit.InitConfig`.
- Logging text is left out. The pipeline task records only that an error was logged, for which order.
- PaymentTasks.HandleExpiredPaymentSessions: the Celery task returns nothing and only logs the count of expired orders. The model hands that count back as its result in place of the log line.
- Celery's `delay` is left out. Enqueueing a task is an event in the record; the Celery task itself is modelled as `RentTasks.OrderPipelineTask`.
- Database transactions are single state changes. The primary-key sequence is not advanced by a rolled-back creation (a real database sequence would be).
- Time is integer microseconds. Time zones and `timezone.localtime` are not modelled; "now" is a parameter.
- Notice senders (SMS and e-mail) never fail in this model; their delivery is not modelled.
- `TinkoffPaymentsClient` turns off the 401 retry, so the initialisers and the confirm/cancel services send each request once. The retry is modelled only in `ApiClient.BaseApiClient.Request`.
- Pipelines.Pipeline.Pipe: requires that the pipe is not already in the pipeline and is not the terminator. In the source, adding the last pipe again makes it its own successor, and the pipeline then never ends.
- Pipelines.Pipeline.Invoke: does not follow the pipe attached after the terminator. It reports only whether the chain would hand over, and does not state each pipe's stored result.
- OrderPipelineBuilding.OrderPipelineBuilder.Build: the builder's pipes are shared singletons. A second build rewires them; the model states each build on its own and not the aliasing between builds.
- PipeCore.StatusListRepr: renders each status with Python's default enum repr `<Status.X: 'X'>`. Django versions that override the repr of choices would print something else. Only the opening bracket is stated.
- Notifications.HandleRejected: the final status does not depend on the old one, so a repeated notification changes no status. It does record a second status save, so the record is not idempotent.
- Storage.Db.Valid: covers the one-to-one link from session to order (distinct order keys) but not the delete protection, because the core never deletes orders.
- Notifications.HandleAuthorized and Notifications.HandleConfirmed require every session's foreign key to name a saved order. This is the database's referential integrity, not a check the handler makes.
- PaymentInit.IntField: `int()` also accepts non-ASCII decimal digits (Arabic-Indic, full-width and others). The model reads only the ASCII digits 0 to 9 and refuses the rest.
- Storage.Db.Valid: a second session for an order that already has one would fail the one-to-one constraint with an IntegrityError. The database error is not modelled; the methods promise consistency only under the conditions their rows name.
- CreateOrder.CreateOrderService.CreateOrderAndInitPayment: keeps the database consistent only when the init pipe's stored session names the new order. The init pipe is not part of this model, so this is a condition and not a proved fact.
- PaymentSessionReinit.Invoke: keeps the database consistent only when the gateway's answer names the order of the old session, since the new session's order key is the answer's `OrderId`.
- Non-string `PaymentId`, `PaymentURL` or `Data` values in a gateway response are treated as errors. In Python they would flow on as other types.

## Findings

| source | as written | input that shows it | evidently intended | confidence | as-written member | corrected member |
|---|---|---|---|---|---|---|
| utils/api_tools/base_api_client.py:20 | the third entry of the list of methods that may carry a body is "putch" | a "PATCH" request with data is refused with ValueError | PATCH may carry a body | not executed | ApiClient.PatchBodyRefusedAsWritten, ApiClient.BaseApiClient.SendOnce | ApiClient.HasRequestBody |
