/** The chat transcript entry shared by the page and the API route. */
module Messages {

  /** One transcript entry; `role` is `"user"` for the person typing, anything else for the agent side. */
  datatype Message = Message(id: string, role: string, content: string)

  const UserRole: string := "user"
}
