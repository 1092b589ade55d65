/**
 The transfer objects the page receives from the backend. The page never
 builds or edits them; it stores and displays them as they arrive.
 JavaScript numbers that are compared against thresholds (scores, hours) are
 `real`, so that a score of 79.5 is classified exactly as the page does.
 */
module Entities {

  /** One task, as listed by `GET /tasks`. */
  datatype Task = Task(
    id: string,
    title: string,
    description: string,
    priority: string,
    status: string,
    estimatedTime: int,
    dueDate: string,
    fromEmail: string)

  /** One CRM contact, as returned by `GET /crm/{email}`. */
  datatype Contact = Contact(
    name: string,
    email: string,
    company: string,
    position: string,
    engagementScore: real,
    dealValue: real,
    lastContact: string)

  /** One row of the daily plan's schedule, shown in server order. */
  datatype ScheduleItem = ScheduleItem(startTime: string, task: string, priority: string, duration: int)

  /** The daily plan returned by `GET /ai/plan-day`. */
  datatype DailyPlan = DailyPlan(
    totalTasks: int,
    totalMinutes: real,
    recommendation: string,
    schedule: seq<ScheduleItem>)

  datatype Breakdown = Breakdown(overdue: int, dueToday: int, dueThisWeek: int)

  /** The time-debt summary returned by `GET /ai/time-debt`. */
  datatype TimeDebt = TimeDebt(
    score: real,
    status: string,
    totalPendingHours: real,
    totalOverdueHours: real,
    recommendation: string,
    breakdown: Breakdown)
}
