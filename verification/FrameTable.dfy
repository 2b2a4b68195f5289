/** The frame classes of the Python client. */
module FrameTable {
  import opened Options
  import opened Names
  import opened Protocol

  // ----- field names -----

  const ACTION: FieldName := "action"
  const ATTACHMENTS: FieldName := "attachments"
  const AUTH_TOKEN: FieldName := "auth_token"
  const BUTTONS: FieldName := "buttons"
  const CARDS: FieldName := "cards"
  const CHAT_ID: FieldName := "chat_id"
  const CHOICES: FieldName := "choices"
  const CODE: FieldName := "code"
  const COMMAND: FieldName := "command"
  const CONTEXT_MSG_ID: FieldName := "context_msg_id"
  const DETAIL: FieldName := "detail"
  const DISPLAY_TEXT: FieldName := "display_text"
  const DURATION_MINUTES: FieldName := "duration_minutes"
  const EMOJI: FieldName := "emoji"
  const ENABLED: FieldName := "enabled"
  const FIRE_AT_MS: FieldName := "fire_at_ms"
  const FOLDER_PATH: FieldName := "folder_path"
  const FOOTER: FieldName := "footer"
  const FORCE_REFRESH: FieldName := "force_refresh"
  const HTML: FieldName := "html"
  const INSTANCE_ID: FieldName := "instance_id"
  const LOTTIE_PAYLOAD: FieldName := "lottie_payload"
  const MESSAGE: FieldName := "message"
  const MESSAGE_ID: FieldName := "message_id"
  const MODE: FieldName := "mode"
  const MODEL_ID: FieldName := "model_id"
  const OK: FieldName := "ok"
  const PARTICIPANT: FieldName := "participant"
  const PROMPT: FieldName := "prompt"
  const PROTOCOL_VERSION: FieldName := "protocol_version"
  const QUESTION: FieldName := "question"
  const QUOTED_PREVIEW_TEXT: FieldName := "quoted_preview_text"
  const REASON: FieldName := "reason"
  const REPLY_TO: FieldName := "reply_to"
  const REQUEST_ID: FieldName := "request_id"
  const RESULT: FieldName := "result"
  const SENDER_NAME: FieldName := "sender_name"
  const SENDER_REF: FieldName := "sender_ref"
  const STATUS: FieldName := "status"
  const TARGETS: FieldName := "targets"
  const TASK_ID: FieldName := "task_id"
  const TEXT: FieldName := "text"
  const TIME_OF_DAY: FieldName := "time_of_day"
  const TYPE: FieldName := "type"
  const WA_STATUS: FieldName := "wa_status"

  // ----- frame classes -----

  function Required(name: FieldName): Field {
    Field(name, false, None)
  }

  /** A field declared as a tuple. */
  function Repeated(name: FieldName): Field {
    Field(name, true, None)
  }

  function Optional(name: FieldName, default: Value): Field {
    Field(name, false, Some(default))
  }

  /** A frame whose fields are in a payload. */
  function Wrapped(wireType: string, fields: seq<Field>): Schema {
    Schema(wireType, false, fields)
  }

  /** A control event: its fields stand beside the type. */
  function Control(wireType: string, fields: seq<Field>): Schema {
    Schema(wireType, true, fields)
  }

  /** Frames of the handshake. */
  function Handshake(): (table: seq<Schema>)
    ensures |table| == 2 && forall k | 0 <= k < |table| :: SchemaOk(table[k])
  {
    [
      Wrapped("hello", [Required(FOLDER_PATH), Optional(PROTOCOL_VERSION, Str("2.0")), Optional(AUTH_TOKEN, Null)]),
      Wrapped("hello_ack", [Required(FOLDER_PATH), Required(WA_STATUS)])
    ]
  }

  /** Frames the client sends. */
  function Actions(): (table: seq<Schema>)
    ensures |table| == 8 && forall k | 0 <= k < |table| :: SchemaOk(table[k])
  {
    [
      Wrapped("send_message", [Required(REQUEST_ID), Required(CHAT_ID), Optional(TEXT, Null),
        Optional(REPLY_TO, Null), Optional(ATTACHMENTS, Null)]),
      Wrapped("react_message", [Required(REQUEST_ID), Required(CHAT_ID), Required(CONTEXT_MSG_ID), Required(EMOJI)]),
      Wrapped("delete_message", [Required(REQUEST_ID), Required(CHAT_ID), Required(CONTEXT_MSG_ID)]),
      Wrapped("kick_member", [Required(REQUEST_ID), Required(CHAT_ID), Repeated(TARGETS),
        Optional(MODE, Str("partial_success"))]),
      Wrapped("mark_read", [Required(CHAT_ID), Required(MESSAGE_ID), Optional(PARTICIPANT, Null)]),
      Wrapped("send_presence", [Required(CHAT_ID), Required(TYPE)]),
      Wrapped("send_quiz", [Required(REQUEST_ID), Required(CHAT_ID), Required(QUESTION), Repeated(CHOICES),
        Optional(REPLY_TO, Null), Optional(FOOTER, Null)]),
      Wrapped("render_html", [Required(REQUEST_ID), Required(CHAT_ID), Required(HTML)])
    ]
  }

  /** More frames the client sends. */
  function FurtherActions(): (table: seq<Schema>)
    ensures |table| == 7 && forall k | 0 <= k < |table| :: SchemaOk(table[k])
  {
    [
      Wrapped("send_copy_code", [Required(REQUEST_ID), Required(CHAT_ID), Required(CODE),
        Optional(DISPLAY_TEXT, Str("Copy Code")), Optional(REPLY_TO, Null), Optional(QUOTED_PREVIEW_TEXT, Null)]),
      Wrapped("relay_lottie_sticker", [Required(REQUEST_ID), Required(CHAT_ID), Required(LOTTIE_PAYLOAD),
        Optional(REPLY_TO, Null)]),
      Wrapped("send_buttons", [Required(REQUEST_ID), Required(CHAT_ID), Required(TEXT), Repeated(BUTTONS),
        Optional(FOOTER, Null)]),
      Wrapped("send_carousel", [Required(REQUEST_ID), Required(CHAT_ID), Repeated(CARDS), Optional(TEXT, Null)]),
      Wrapped("run_command", [Required(REQUEST_ID), Required(CHAT_ID), Required(COMMAND),
        Optional(CONTEXT_MSG_ID, Null)]),
      Wrapped("get_chat_context", [Required(REQUEST_ID), Required(CHAT_ID), Optional(FORCE_REFRESH, Bool(false))]),
      Wrapped("download_media", [Required(REQUEST_ID), Required(CHAT_ID), Optional(CONTEXT_MSG_ID, Null),
        Optional(MESSAGE_ID, Null)])
    ]
  }

  /** Frames the gateway sends with a payload. */
  function Answers(): (table: seq<Schema>)
    ensures |table| == 3 && forall k | 0 <= k < |table| :: SchemaOk(table[k])
  {
    [
      Wrapped("action_ack", [Required(REQUEST_ID), Required(ACTION), Required(OK), Required(DETAIL),
        Optional(CODE, Null), Optional(RESULT, Null)]),
      Wrapped("error", [Required(MESSAGE), Required(DETAIL), Required(CODE), Optional(REQUEST_ID, Null),
        Optional(ACTION, Null)]),
      Wrapped("whatsapp_status", [Required(FOLDER_PATH), Required(STATUS), Required(INSTANCE_ID),
        Optional(REASON, Null)])
    ]
  }

  /** Frames the gateway sends without one. */
  function ControlEvents(): (table: seq<Schema>)
    ensures |table| == 11 && forall k | 0 <= k < |table| :: SchemaOk(table[k])
  {
    [
      Control("clear_history", [Required(FOLDER_PATH), Required(CHAT_ID)]),
      Control("set_llm2_model", [Required(FOLDER_PATH), Required(CHAT_ID), Required(MODEL_ID)]),
      Control("invalidate_llm2_model", [Required(FOLDER_PATH), Required(CHAT_ID)]),
      Control("invalidate_default_model", [Required(FOLDER_PATH)]),
      Control("invalidate_chat_settings", [Required(FOLDER_PATH), Required(CHAT_ID)]),
      Control("set_subagent_enabled", [Required(FOLDER_PATH), Required(CHAT_ID), Required(ENABLED)]),
      Control("schedule_task", [Required(FOLDER_PATH), Required(CHAT_ID), Required(TASK_ID), Required(FIRE_AT_MS),
        Required(PROMPT)]),
      Control("daily_task", [Required(FOLDER_PATH), Required(CHAT_ID), Required(TASK_ID), Required(TIME_OF_DAY),
        Required(PROMPT)]),
      Control("daily_task_list", [Required(FOLDER_PATH), Required(CHAT_ID)]),
      Control("daily_task_delete", [Required(FOLDER_PATH), Required(CHAT_ID), Required(TASK_ID)]),
      Control("set_chat_mute", [Required(FOLDER_PATH), Required(CHAT_ID), Required(SENDER_REF),
        Required(SENDER_NAME), Required(DURATION_MINUTES)])
    ]
  }

  /** Everything that has a payload. */
  function WithPayload(): (table: seq<Schema>)
    ensures |table| == 20 && forall k | 0 <= k < |table| :: SchemaOk(table[k])
  {
    Handshake() + Actions() + FurtherActions() + Answers()
  }

  function Frames(): (table: seq<Schema>)
    ensures |table| == 31 && forall k | 0 <= k < |table| :: SchemaOk(table[k])
  {
    WithPayload() + ControlEvents()
  }

  lemma PayloadTypesDistinct()
    ensures forall j, k | 0 <= j < k < 20 :: WithPayload()[j].wireType != WithPayload()[k].wireType
  {
  }

  lemma ControlTypesDistinct()
    ensures forall j, k | 0 <= j < k < 11 :: ControlEvents()[j].wireType != ControlEvents()[k].wireType
  {
  }

  lemma ControlTypesApart()
    ensures forall j, k | 0 <= j < 20 && 0 <= k < 11 :: WithPayload()[j].wireType != ControlEvents()[k].wireType
  {
  }

  /** The table is well formed: in particular, no two frame classes have the same type on the wire. */
  lemma FramesOk()
    ensures TableOk(Frames())
  {
    PayloadTypesDistinct();
    ControlTypesDistinct();
    ControlTypesApart();
    forall j, k | 0 <= j < k < 31 ensures Frames()[j].wireType != Frames()[k].wireType {
      assert Frames()[j] == if j < 20 then WithPayload()[j] else ControlEvents()[j - 20];
      assert Frames()[k] == if k < 20 then WithPayload()[k] else ControlEvents()[k - 20];
    }
  }

  /** Every frame the client can build comes back exactly when its values are of the declared kinds. */
  lemma FramesRoundTrip(frame: Frame)
    requires FrameOk(Frames(), frame)
    ensures Decode(Frames(), Encode(Frames(), frame)) == Known(Frames()[frame.kind].wireType, frame) <==>
      forall f | f in Frames()[frame.kind].fields :: f.name in frame.values && Survives(f, frame.values[f.name])
  {
    FramesOk();
    RoundTripExactlyWhen(Frames(), frame);
  }
}
