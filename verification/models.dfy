/** The enumerations of the sales-bot data model; `Value()` is the string stored in the database. */
module Models {

  datatype UserRole = SuperAdmin | Admin | Support {
    function Value(): string
    {
      match this
      case SuperAdmin => "super_admin"
      case Admin => "admin"
      case Support => "support"
    }
  }

  datatype OrderStatus = Pending | Paid | Confirmed | Cancelled | Expired {
    function Value(): string
    {
      match this
      case Pending => "pending"
      case Paid => "paid"
      case Confirmed => "confirmed"
      case Cancelled => "cancelled"
      case Expired => "expired"
    }
  }

  datatype PaymentStatus = Pending | Approved | Rejected {
    function Value(): string
    {
      match this
      case Pending => "pending"
      case Approved => "approved"
      case Rejected => "rejected"
    }
  }

  datatype TicketStatus = Open | Answered | Waiting | Closed {
    function Value(): string
    {
      match this
      case Open => "open"
      case Answered => "answered"
      case Waiting => "waiting"
      case Closed => "closed"
    }
  }
}
