/** Fixed lists used by the form and the chart (constants.ts). */
module Constants {

  /** The income sources offered by the form (`INCOME_SUBMENUS`). */
  const IncomeSubmenus: seq<string> := ["Cash", "Bank", "Other"]

  const HomeExpenseCategories: seq<string> := [
    "Rent/EMI", "Groceries", "Electricity", "Water", "Internet/Phone",
    "Maintenance", "Domestic Help", "Repairs", "Decor/Furniture", "Others"
  ]

  const SchoolExpenseCategories: seq<string> := [
    "Tuition Fees", "Books/Supplies", "Uniforms", "Transport/Bus", "Stationery",
    "Field Trips", "Lunch/Snacks", "Events/Annual Day", "Private Tutors", "Others"
  ]

  /** The ten-colour chart palette, used cyclically. */
  const ChartColors: seq<string> := [
    "#0088FE", "#00C49F", "#FFBB28", "#FF8042", "#8884d8",
    "#82ca9d", "#ffc658", "#8dd1e1", "#a4de6c", "#d0ed57"
  ]
}
