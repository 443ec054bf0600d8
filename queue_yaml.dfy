/**
 * `BuildQueueYaml`: the Swagger 2.0 document of the queue service. Every
 * queue gets one path, `/<queue>/messages`, with a `get` that retrieves
 * messages and a `post` that adds one. The builder writes the `definitions:`
 * section (`QueueMessage` and `ErrorMessage`) inside its loop over the
 * queues, once after each queue's path; `QueueDocument` keeps that layout.
 */
module QueueYaml {
  import opened Sequences
  import opened Wrappers
  import opened DocumentLines
  import opened Parameters
  import opened SwaggerFragments

  const QueueMessage := "QueueMessage"
  const ErrorMessage := "ErrorMessage"

  // ---------------------------------------------------------------------
  // The path of one queue

  const NumOfMessages := Param("numofmessages", "Number of Messages", false, "query", "integer", Some("1"))
  const VisibilityTimeout := Param("visibilitytimeout", "Visibility Timeout", false, "query", "integer", Some("30"))
  const PeekOnly := Param("peekonly", "Peek Only", false, "query", "boolean", Some("false"))
  const MessageTtl := Param("messagettl", "Message Get Time to Live", false, "query", "integer", Some("604800"))
  const MessageBody := Param("body", "Body", true, "body", "string",
    Some("'<QueueMessage><MessageText>message-content</MessageText></QueueMessage>'"))

  const GetMessagesParameters := [NumOfMessages, VisibilityTimeout, PeekOnly]
  const PutMessageParameters := [VisibilityTimeout, MessageTtl, MessageBody]

  const GetMessagesResponses := [Response("200", "Success", None)]
  const PutMessageResponses := [Response("200", "Success", None), Response("400", "Bad Request", Some(ErrorMessage))]

  /** The path of the queue's messages. */
  function MessagesPath(queueName: string): string { queueName + "/messages" }

  /** `get`: retrieve messages from the front of the queue. */
  function GetMessagesOperation(queueName: string): seq<Line>
  {
    OperationHead("get", "Retrieves one or more messages from the front of the " + queueName + " queue.")
    + QueueParameterLines(queueName)
    + ParamsLines(GetMessagesParameters)
    + Responses(GetMessagesResponses)
  }

  /** `post`: add a message to the back of the queue; its body is the XML message, not a `$ref`. */
  function PutMessageOperation(queueName: string): seq<Line>
  {
    OperationHead("post", "Adds a new message to the back of the message the " + queueName + " queue.")
    + QueueParameterLines(queueName)
    + ParamsLines(PutMessageParameters)
    + Responses(PutMessageResponses)
  }

  function QueuePath(queueName: string): seq<Line>
  {
    [PathHead(MessagesPath(queueName))] + GetMessagesOperation(queueName) + PutMessageOperation(queueName)
  }

  // ---------------------------------------------------------------------
  // Definitions

  function QueueMessageDefinition(): seq<Line>
  {
    ObjectHead(QueueMessage) + PlainProperty("MessageText", "string")
  }

  /** The error body of the queue service. */
  function ErrorMessageDefinition(): seq<Line>
  {
    ObjectHead(ErrorMessage)
    + PlainProperty("Code", "string")
    + PlainProperty("Message", "string")
    + PlainProperty("LineNumber", "integer")
    + PlainProperty("LinePosition", "integer")
    + PlainProperty("Reason", "string")
  }

  function QueueDefinitions(): seq<Line>
  {
    QueueMessageDefinition() + ErrorMessageDefinition()
  }

  // ---------------------------------------------------------------------
  // The document

  function QueueHeader(storageAccountName: string, host: string): seq<Line>
  {
    Preamble(storageAccountName + " Queue API", "API for the " + storageAccountName + " queue service", host)
    + [Text("produces:")] + [Text(" - application/xml")]
    + [Text("consumes:")] + [Text(" - application/xml")]
    + [Text("paths:")]
  }

  /** What one turn of the builder's loop appends: the path, then a whole `definitions:` section. */
  function QueueBlock(queueName: string): seq<Line>
  {
    QueuePath(queueName) + [Text("definitions:")] + QueueDefinitions()
  }

  function AllQueueBlocks(queues: seq<string>): seq<Line>
  {
    if queues == [] then [] else AllQueueBlocks(queues[..|queues| - 1]) + QueueBlock(queues[|queues| - 1])
  }

  /** The document as the builder writes it. */
  function QueueDocument(storageAccountName: string, host: string, queues: seq<string>): seq<Line>
  {
    QueueHeader(storageAccountName, host) + AllQueueBlocks(queues)
  }

  /** Every queue's path, with no definitions between them. */
  function AllQueuePaths(queues: seq<string>): seq<Line>
  {
    if queues == [] then [] else AllQueuePaths(queues[..|queues| - 1]) + QueuePath(queues[|queues| - 1])
  }

  /** The document with the `definitions:` section written once, after the loop. */
  function SingleDefinitionsQueueDocument(storageAccountName: string, host: string, queues: seq<string>): seq<Line>
  {
    QueueHeader(storageAccountName, host) + AllQueuePaths(queues) + [Text("definitions:")] + QueueDefinitions()
  }

  // ---------------------------------------------------------------------
  // The builder

  method AppendGetMessagesOperation(sb: LineBuffer, queueName: string)
    modifies sb
    ensures sb.lines == old(sb.lines) + GetMessagesOperation(queueName)
  {
    AppendLines(sb, OperationHead("get", "Retrieves one or more messages from the front of the " + queueName + " queue."));
    AddQueueParameters(queueName, sb);
    AppendParams(sb, GetMessagesParameters);
    AppendLines(sb, Responses(GetMessagesResponses));
  }

  method AppendPutMessageOperation(sb: LineBuffer, queueName: string)
    modifies sb
    ensures sb.lines == old(sb.lines) + PutMessageOperation(queueName)
  {
    AppendLines(sb, OperationHead("post", "Adds a new message to the back of the message the " + queueName + " queue."));
    AddQueueParameters(queueName, sb);
    AppendParams(sb, PutMessageParameters);
    AppendLines(sb, Responses(PutMessageResponses));
  }

  method AppendQueuePath(sb: LineBuffer, queueName: string)
    modifies sb
    ensures sb.lines == old(sb.lines) + QueuePath(queueName)
  {
    ghost var start := sb.lines;
    sb.AppendLine(PathHead(MessagesPath(queueName)));
    AppendGetMessagesOperation(sb, queueName);
    AppendAssoc(start, [PathHead(MessagesPath(queueName))], GetMessagesOperation(queueName));
    AppendPutMessageOperation(sb, queueName);
    AppendAssoc(start, [PathHead(MessagesPath(queueName))] + GetMessagesOperation(queueName), PutMessageOperation(queueName));
  }

  method AppendDefinitions(sb: LineBuffer)
    modifies sb
    ensures sb.lines == old(sb.lines) + [Text("definitions:")] + QueueDefinitions()
  {
    sb.AppendLine(Text("definitions:"));
    AppendLines(sb, QueueDefinitions());
  }

  /** The body of the builder's `foreach` over the queues. */
  method AppendQueueBlock(sb: LineBuffer, queueName: string)
    modifies sb
    ensures sb.lines == old(sb.lines) + QueueBlock(queueName)
  {
    ghost var start := sb.lines;
    AppendQueuePath(sb, queueName);
    AppendDefinitions(sb);
    AppendAssoc(start, QueuePath(queueName), [Text("definitions:")] + QueueDefinitions());
  }

  /** The text `BuildQueueYaml` returns, line by line, for the queues the service lists. */
  method BuildQueueYaml(storageAccountName: string, host: string, queues: seq<string>)
    returns (yaml: seq<string>)
    ensures yaml == Render(QueueDocument(storageAccountName, host, queues))
  {
    var sb := new LineBuffer();
    var header := QueueHeader(storageAccountName, host);
    AppendLines(sb, header);
    assert sb.lines == header;
    for i := 0 to |queues|
      invariant sb.lines == header + AllQueueBlocks(queues[..i])
    {
      AppendQueueBlock(sb, queues[i]);
      PrefixStep(queues, i);
      AppendAssoc(header, AllQueueBlocks(queues[..i]), QueueBlock(queues[i]));
    }
    WholePrefix(queues);
    yaml := Render(sb.lines);
  }

  /** The same builder with the `definitions:` section moved after the loop. */
  method BuildQueueYamlSingleDefinitions(storageAccountName: string, host: string, queues: seq<string>)
    returns (yaml: seq<string>)
    ensures yaml == Render(SingleDefinitionsQueueDocument(storageAccountName, host, queues))
  {
    var sb := new LineBuffer();
    var header := QueueHeader(storageAccountName, host);
    AppendLines(sb, header);
    assert sb.lines == header;
    for i := 0 to |queues|
      invariant sb.lines == header + AllQueuePaths(queues[..i])
    {
      AppendQueuePath(sb, queues[i]);
      PrefixStep(queues, i);
      AppendAssoc(header, AllQueuePaths(queues[..i]), QueuePath(queues[i]));
    }
    WholePrefix(queues);
    AppendDefinitions(sb);
    assert sb.lines == header + AllQueuePaths(queues) + [Text("definitions:")] + QueueDefinitions();
    yaml := Render(sb.lines);
  }
}
