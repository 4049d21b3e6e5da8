/** The chat messages the services pass around: a role and its text. */
module Messages {
  datatype Message =
    | SystemMessage(content: string)
    | HumanMessage(content: string)
    | AiMessage(content: string)
}
